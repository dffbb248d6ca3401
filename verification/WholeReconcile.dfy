/** One reconcile with nothing in between, for every database mode, either placement, and objects that
    have accepted a database and placement as well as fresh ones: when it comes to its end, and what it
    leaves behind when it does not. */
module WholeReconcile {
  import opened Fingerprints
  import opened Protocol
  import opened Incumbency

  // -------------------------------------------------------------------------------------------
  // The calls of a reconcile; the ones of other modes are not enabled and do nothing

  function Resolving(incumbent: bool, external: string, generated: string, drift: bool): seq<Action> {
    [Gate(Fetch), Gate(CheckPlacement(incumbent)), Credential(ResolveExternal(external)), Credential(ResolveProvided),
     Credential(ReadGeneratedSecret(generated)), Credential(PatchGeneratedSecret(drift))]
  }

  const GATES := [Gate(GatePostgres), Gate(GateIdentity), Gate(GatePlacement)]
  const HANDOFF := [Handoff(CheckSidecarGone), Handoff(SuspendForHandoff), Handoff(CheckDedicatedPodsGone)]
  const DBSYNC := [Apply(ApplyConfigMap), Apply(ApplyPGPass), Apply(ApplyStatePVC), Apply(ApplyDeployment)]

  function Postgres(ready: bool): seq<Action> {
    [Apply(ApplyPostgresPVC), Apply(ApplyPostgresDeployment), Apply(CheckPostgresReady(ready))]
  }

  /** From the resolved database to the last apply. */
  function Applying(ready: bool): seq<Action> {
    GATES + HANDOFF + Postgres(ready) + DBSYNC
  }

  // -------------------------------------------------------------------------------------------
  // Running a few steps

  /** What the live object offers has been noted, as it is after every step of every run. */
  predicate Observed(s: State) {
    Observe(s) == s
  }

  lemma {:induction false} RunsAreObserved(s: State, actions: seq<Action>)
    requires Observed(s)
    ensures Observed(Run(s, actions))
    decreases actions
  {
    if actions != [] {
      RunsAreObserved(Step(actions[0], s), actions[1..]);
    }
  }

  lemma InitialIsObserved(s: State)
    requires Initial(s)
    ensures Observed(s)
  {
  }

  /** A step that leaves the live object alone is just what it performs. */
  lemma Unobserved(s: State, a: Action)
    requires Observed(s) && Enabled(a, s) && Perform(a, s).live == s.live && Perform(a, s).everReady == s.everReady
    ensures Step(a, s) == Perform(a, s) && Observed(Step(a, s))
  {
  }

  /** The reconcile has ended, waits for Pods or for Postgres, or is on the blocked path. */
  predicate Stopped(phase: Phase) {
    phase == Idle || phase == Waiting || phase == Blocked || phase == PostgresPending
  }

  /** Calls that come after a stop are not made. */
  lemma {:induction false} StoppedStays(s: State, actions: seq<Action>)
    requires Stopped(s.phase)
    requires forall a :: a in actions ==> a.Handoff? || a.Apply? || a.Credential? || (a.Gate? && !a.gate.Fetch?)
    ensures Run(s, actions) == s
    decreases actions
  {
    if actions != [] {
      var a := actions[0];
      assert a in actions;
      assert !Enabled(a, s);
      StoppedStays(s, actions[1..]);
    }
  }

  // -------------------------------------------------------------------------------------------
  // Resolving the database

  /** Only the Secrets, and what the reconcile keeps to itself, may differ. */
  predicate OnlyResolves(s: State, t: State) {
    && t == s.(phase := t.phase, secrets := t.secrets, generated := t.generated, work := t.work)
    && t.work.dbSync == s.work.dbSync
  }

  lemma CredentialsOnlyResolve(a: CredentialAction, s: State)
    requires Observed(s)
    ensures OnlyResolves(s, Step(Credential(a), s)) && Observed(Step(Credential(a), s))
  {
    hide Observe;
    if CredentialEnabled(a, s) {
      Unobserved(s, Credential(a));
    }
  }

  predicate HasResolved(phase: Phase) {
    phase == Resolved || phase == Blocked || phase == Idle
  }

  /** The calls of the other database modes are not made. */
  lemma {:induction false} ResolvedStays(r: State, actions: seq<Action>)
    requires HasResolved(r.phase) && forall a :: a in actions ==> a.Credential?
    ensures Run(r, actions) == r
    decreases actions
  {
    if actions != [] {
      assert actions[0] in actions && !Enabled(actions[0], r);
      ResolvedStays(r, actions[1..]);
    }
  }

  lemma ResolvingOutcome(s: State, incumbent: bool, external: string, generated: string, drift: bool)
    requires s.phase == Idle && Observed(s) && !DataProblem(generated)
    ensures var r := Run(s, Resolving(incumbent, external, generated, drift));
            && OnlyResolves(s.(work := s.work.(dbSync := s.live)), r) && HasResolved(r.phase) && Observed(r)
            && (r.phase == Resolved ==>
                  EffectiveMode(s.live.spec) != UnknownMode && (EffectiveMode(s.live.spec) == PrimarySidecar ==> incumbent))
  {
    hide Run, Observe, Perform, PerformGate, PerformCredential;
    var placed := Step(Gate(CheckPlacement(incumbent)), Step(Gate(Fetch), s));
    var calls := Resolving(incumbent, external, generated, drift);
    var first := [Gate(Fetch), Gate(CheckPlacement(incumbent)), Credential(ResolveExternal(external))];
    var last := [Credential(ResolveProvided), Credential(ReadGeneratedSecret(generated)),
                 Credential(PatchGeneratedSecret(drift))];
    assert calls == first + last;
    RunConcat(s, first, last);
    FetchAndCheck(s, incumbent);
    var a := Step(Credential(ResolveExternal(external)), placed);
    ThreeSteps(s, first[0], first[1], first[2]);
    ThreeSteps(a, last[0], last[1], last[2]);
    var b := Step(last[0], a);
    var c := Step(last[1], b);
    CredentialsOnlyResolve(ResolveExternal(external), placed);
    CredentialsOnlyResolve(ResolveProvided, a);
    CredentialsOnlyResolve(ReadGeneratedSecret(generated), b);
    CredentialsOnlyResolve(PatchGeneratedSecret(drift), c);
    ResolvingComesToAnEnd(placed, external, generated, drift);
  }

  lemma FetchAndCheck(s: State, incumbent: bool)
    requires s.phase == Idle && Observed(s)
    ensures var placed := Step(Gate(CheckPlacement(incumbent)), Step(Gate(Fetch), s));
            var mode := EffectiveMode(s.live.spec);
            && Observed(placed)
            && placed == s.(work := s.work.(dbSync := s.live),
                            phase := if mode == DedicatedFollower || (mode == PrimarySidecar && incumbent) then Placed
                                     else Blocked)
  {
    hide Observe;
    Unobserved(s, Gate(Fetch));
    Unobserved(Step(Gate(Fetch), s), Gate(CheckPlacement(incumbent)));
  }

  lemma ResolvingComesToAnEnd(s: State, external: string, generated: string, drift: bool)
    requires (s.phase == Placed || s.phase == Blocked) && Observed(s) && !DataProblem(generated)
    ensures var a := Step(Credential(ResolveExternal(external)), s);
            var c := Step(Credential(ReadGeneratedSecret(generated)), Step(Credential(ResolveProvided), a));
            var r := Step(Credential(PatchGeneratedSecret(drift)), c);
            HasResolved(r.phase) && (s.phase == Blocked ==> r.phase == Blocked)
  {
    var a := Step(Credential(ResolveExternal(external)), s);
    var b := Step(Credential(ResolveProvided), a);
    var c := Step(Credential(ReadGeneratedSecret(generated)), b);
    CredentialsLead(ResolveExternal(external), s);
    CredentialsLead(ResolveProvided, a);
    CredentialsLead(ReadGeneratedSecret(generated), b);
    CredentialsLead(PatchGeneratedSecret(drift), c);
  }

  lemma CredentialsLead(a: CredentialAction, s: State)
    ensures var t := Step(Credential(a), s); var database := s.work.dbSync.spec.database;
            && t.work.dbSync == s.work.dbSync
            && (s.phase != Placed && s.phase != SecretSeen ==> t.phase == s.phase)
            && (s.phase == Placed && a.ResolveExternal? && database.External? ==> HasResolved(t.phase))
            && (s.phase == Placed && a.ResolveProvided? && database.Managed? && database.authSecretRef.Some? ==>
                  HasResolved(t.phase))
            && (s.phase == Placed && a.ReadGeneratedSecret? && !DataProblem(a.newPassword) && database.Managed? ==>
                  database.authSecretRef.None? ==> HasResolved(t.phase) || t.phase == SecretSeen)
            && (s.phase == SecretSeen ==> if a.PatchGeneratedSecret? then HasResolved(t.phase) else t.phase == SecretSeen)
            && (s.phase == Placed ==> t.phase == Placed || HasResolved(t.phase) || t.phase == SecretSeen)
            && (s.phase == Placed && a.ResolveExternal? && database.Managed? ==> t.phase == Placed)
            && (s.phase == Placed && a.ResolveProvided? && database.Managed? && database.authSecretRef.None? ==>
                  t.phase == Placed)
  {
  }

  // -------------------------------------------------------------------------------------------
  // The gates and the handoff

  /** What was accepted, if anything was, is what the spec asks for. */
  predicate GatesPass(r: State) {
    var x := r.work.dbSync;
    && (x.spec.database.Managed? ==> AcceptedPostgres(r) in {Unset, Digest(DesiredPostgres(r.work))})
    && AcceptedIdentity(r.statePVC) in {Unset, Digest(DesiredIdentity(x.spec))}
    && AcceptedMode(r, x) in {None, Some(EffectiveMode(x.spec))}
  }

  /** Only the reconcile's copy of the status may differ. */
  predicate OnlyRepairs(r: State, t: State) {
    t == r.(phase := t.phase, work := r.work.(dbSync := r.work.dbSync.(status := t.work.dbSync.status)))
  }

  lemma GateCall(a: GateAction, s: State)
    requires Observed(s)
    ensures Step(Gate(a), s) == (if GateEnabled(a, s) then PerformGate(a, s) else s) && Observed(Step(Gate(a), s))
  {
    if GateEnabled(a, s) {
      Unobserved(s, Gate(a));
    }
  }

  lemma GatesOutcome(r: State)
    requires r.phase == Resolved && Observed(r)
    ensures var t := Run(r, GATES);
            && OnlyRepairs(r, t) && Observed(t) && t.phase == (if GatesPass(r) then PlacementGated else Blocked)
            && (AcceptedIdentity(r.statePVC) == Unset && AcceptedMode(r, r.work.dbSync).None? ==> t.work == r.work)
  {
    hide Run, Observed, Step, AcceptedPostgres, AcceptedIdentity, AcceptedMode, DesiredPostgres, DesiredIdentity;
    ThreeSteps(r, GATES[0], GATES[1], GATES[2]);
    GateCall(GatePostgres, r);
    var a := Step(GATES[0], r);
    GateCall(GateIdentity, a);
    var b := Step(GATES[1], a);
    GateCall(GatePlacement, b);
    if a.phase == PostgresGated {
      RepairKeepsAcceptedMode(r, b);
      SamePVCSameIdentity(r, a);
    }
  }

  lemma SamePVCSameIdentity(r: State, a: State)
    requires a.statePVC == r.statePVC && a.work.dbSync == r.work.dbSync
    ensures AcceptedIdentity(a.statePVC) == AcceptedIdentity(r.statePVC)
  {
  }

  lemma RepairKeepsAcceptedMode(r: State, b: State)
    requires b == GateIdentityStep(Goto(r, PostgresGated))
    ensures AcceptedMode(b, b.work.dbSync) == AcceptedMode(r, r.work.dbSync)
  {
  }

  /** The other placement's Pods are gone. */
  predicate HandoffFree(r: State) {
    if Dedicated(r) then SidecarGone(r, r.work.dbSync.spec.network) else !r.dedicatedRunning
  }

  function AfterHandoff(g: State): State {
    g.(phase := if HandoffFree(g) then HandedOff else Waiting,
       deployment := if Dedicated(g) then g.deployment else Suspend(g.deployment))
  }

  lemma HandoffOutcome(g: State)
    requires g.phase == PlacementGated && Observed(g)
    ensures Run(g, HANDOFF) == AfterHandoff(g) && Observed(AfterHandoff(g))
  {
    hide Run, Observe, SidecarGone, Suspend;
    ThreeSteps(g, HANDOFF[0], HANDOFF[1], HANDOFF[2]);
    if Dedicated(g) {
      Unobserved(g, HANDOFF[0]);
    } else {
      Unobserved(g, HANDOFF[1]);
      Unobserved(Step(HANDOFF[1], g), HANDOFF[2]);
    }
  }

  // -------------------------------------------------------------------------------------------
  // The applies

  /** A managed Postgres has no foreign child in its way and is ready. */
  predicate PostgresFree(r: State, ready: bool) {
    r.work.dbSync.spec.database.Managed? ==>
      && ready
      && (r.postgresPVC.Some? ==> r.postgresPVC.value.owner == ThisDBSync)
      && (r.postgresDeployment.Some? ==> r.postgresDeployment.value.owner == ThisDBSync)
  }

  /** No foreign child is in the way of an apply of this placement. */
  predicate ChildrenFree(r: State) {
    && (r.configMap.Some? ==> r.configMap.value.owner == ThisDBSync)
    && (r.pgPass.Some? ==> r.pgPass.value.owner == ThisDBSync)
    && (r.statePVC.Some? ==> r.statePVC.value.owner == ThisDBSync)
    && (Dedicated(r) && r.deployment.Some? ==> r.deployment.value.owner == ThisDBSync)
  }

  function WithPostgres(s: State): State {
    if s.work.dbSync.spec.database.External? then s
    else
      var stamp := Digest(DesiredPostgres(s.work));
      s.(phase := ReadyToApply, postgresPVC := Some(PostgresPVC(ThisDBSync, stamp)),
         postgresDeployment := Some(PostgresDeployment(ThisDBSync, Unset, stamp)))
  }

  lemma PostgresOutcome(s: State, ready: bool)
    requires s.phase == HandedOff && Observed(s)
    ensures PostgresFree(s, ready) ==> Run(s, Postgres(ready)) == WithPostgres(s) && Observed(WithPostgres(s))
    ensures !PostgresFree(s, ready) ==> Stopped(Run(s, Postgres(ready)).phase)
  {
    hide Run, Observe, DesiredPostgres;
    var calls := Postgres(ready);
    ThreeSteps(s, calls[0], calls[1], calls[2]);
    if s.work.dbSync.spec.database.Managed? {
      Unobserved(s, calls[0]);
      var a := Step(calls[0], s);
      if a.phase == PostgresPVCApplied {
        Unobserved(a, calls[1]);
        var b := Step(calls[1], a);
        if b.phase == PostgresApplied {
          Unobserved(b, calls[2]);
        }
      }
    }
  }

  predicate MayApply(s: State) {
    s.phase == ReadyToApply || (s.phase == HandedOff && s.work.dbSync.spec.database.External?)
  }

  function WithChildren(s: State): State {
    var spec := s.work.dbSync.spec;
    s.(phase := if Dedicated(s) then DeploymentApplied else StatePVCApplied,
       configMap := Some(ConfigMap(ThisDBSync, DesiredIdentity(spec), EffectiveMode(spec))),
       pgPass := Some(PGPass(ThisDBSync, DesiredIdentity(spec), EffectiveMode(spec), s.work.credential.password)),
       statePVC := Some(StatePVC(ThisDBSync, Digest(DesiredIdentity(spec)), Some(EffectiveMode(spec)))),
       deployment := if Dedicated(s) then Some(Deployment(ThisDBSync, 1, Digest(DesiredIdentity(spec)))) else s.deployment)
  }

  lemma ChildrenOutcome(s: State)
    requires MayApply(s) && Observed(s)
    ensures ChildrenFree(s) ==> Run(s, DBSYNC) == WithChildren(s) && Observed(WithChildren(s))
    ensures !ChildrenFree(s) ==> Run(s, DBSYNC).phase == Blocked
  {
    hide Run, Observe, DesiredIdentity, WithChildren;
    var a := Step(DBSYNC[0], s);
    assert DBSYNC == [DBSYNC[0]] + [DBSYNC[1], DBSYNC[2], DBSYNC[3]];
    RunConcat(s, [DBSYNC[0]], [DBSYNC[1], DBSYNC[2], DBSYNC[3]]);
    OneStep(s, DBSYNC[0]);
    ThreeSteps(a, DBSYNC[1], DBSYNC[2], DBSYNC[3]);
    Unobserved(s, DBSYNC[0]);
    if a.phase == ConfigMapApplied {
      MaterialOutcome(s, a);
    } else {
      StoppedStays(a, [DBSYNC[1], DBSYNC[2], DBSYNC[3]]);
    }
  }

  lemma ApplyCall(a: ApplyAction, s: State)
    requires Observed(s)
    ensures Step(Apply(a), s) == (if ApplyEnabled(a, s) then PerformApply(a, s) else s) && Observed(Step(Apply(a), s))
  {
    if ApplyEnabled(a, s) {
      Unobserved(s, Apply(a));
    }
  }

  lemma MaterialOutcome(s: State, a: State)
    requires MayApply(s) && a == ApplyConfigMapStep(s) && a.phase == ConfigMapApplied && Observed(a)
    ensures var t := Step(DBSYNC[3], Step(DBSYNC[2], Step(DBSYNC[1], a)));
            && (ChildrenFree(s) ==> t == WithChildren(s) && Observed(t))
            && (!ChildrenFree(s) ==> t.phase == Blocked)
  {
    hide Observed, Step, DesiredIdentity;
    ApplyCall(ApplyPGPass, a);
    var b := Step(DBSYNC[1], a);
    ApplyCall(ApplyStatePVC, b);
    var c := Step(DBSYNC[2], b);
    ApplyCall(ApplyDeployment, c);
  }

  // -------------------------------------------------------------------------------------------
  // The whole reconcile

  /** Nothing stands between a resolved database and the last apply. */
  predicate Unhindered(r: State, ready: bool) {
    r.phase == Resolved && GatesPass(r) && HandoffFree(r) && PostgresFree(r, ready) && ChildrenFree(r)
  }

  function Applied(r: State): State {
    WithChildren(WithPostgres(AfterHandoff(Run(r, GATES))))
  }

  lemma RepairsKeepConditions(r: State, g: State, ready: bool)
    requires OnlyRepairs(r, g)
    ensures HandoffFree(g) == HandoffFree(r) && PostgresFree(g, ready) == PostgresFree(r, ready)
    ensures ChildrenFree(g) == ChildrenFree(r)
  {
  }

  lemma LaterCallsKeepConditions(g: State, ready: bool)
    ensures PostgresFree(AfterHandoff(g), ready) == PostgresFree(g, ready)
    ensures ChildrenFree(WithPostgres(AfterHandoff(g))) == ChildrenFree(g)
  {
    hide Suspend, SidecarGone, DesiredPostgres;
  }

  lemma ApplyingOutcome(r: State, ready: bool)
    requires HasResolved(r.phase) && Observed(r)
    ensures var t := Run(r, Applying(ready));
            && (Unhindered(r, ready) ==> t == Applied(r) && Observed(t))
            && (!Unhindered(r, ready) ==> Stopped(t.phase))
            && (r.phase == Resolved && GatesPass(r) && !HandoffFree(r) ==> t == AfterHandoff(Run(r, GATES)))
  {
    hide Run, Observed, GatesPass, HandoffFree, PostgresFree, ChildrenFree, WithPostgres, WithChildren;
    assert Applying(ready) == GATES + (HANDOFF + (Postgres(ready) + DBSYNC));
    var g := Run(r, GATES);
    RunConcat(r, GATES, HANDOFF + (Postgres(ready) + DBSYNC));
    if r.phase != Resolved {
      StoppedStays(r, Applying(ready));
    } else {
      GatesOutcome(r);
      RepairsKeepConditions(r, g, ready);
      if g.phase == Blocked {
        StoppedStays(g, HANDOFF + (Postgres(ready) + DBSYNC));
      } else {
        HandoffAndApplies(g, ready);
      }
    }
  }

  lemma HandoffAndApplies(g: State, ready: bool)
    requires g.phase == PlacementGated && Observed(g)
    ensures var t := Run(g, HANDOFF + (Postgres(ready) + DBSYNC));
            && (HandoffFree(g) && PostgresFree(g, ready) && ChildrenFree(g) ==>
                  t == WithChildren(WithPostgres(AfterHandoff(g))) && Observed(t))
            && (!(HandoffFree(g) && PostgresFree(g, ready) && ChildrenFree(g)) ==> Stopped(t.phase))
            && (!HandoffFree(g) ==> t == AfterHandoff(g))
  {
    hide Run, Observed, PostgresFree, ChildrenFree, WithChildren;
    var h := AfterHandoff(g);
    HandoffOutcome(g);
    RunConcat(g, HANDOFF, Postgres(ready) + DBSYNC);
    LaterCallsKeepConditions(g, ready);
    if h.phase == Waiting {
      StoppedStays(h, Postgres(ready) + DBSYNC);
    } else {
      PostgresOutcome(h, ready);
      RunConcat(h, Postgres(ready), DBSYNC);
      if PostgresFree(h, ready) {
        ChildrenOutcome(WithPostgres(h));
      } else {
        StoppedStays(Run(h, Postgres(ready)), DBSYNC);
      }
    }
  }

  /** What stands after the last apply is what the spec asks for. */
  lemma AppliedAsAsked(r: State, ready: bool)
    requires Unhindered(r, ready) && Observed(r)
    ensures var t := Applied(r); var spec := r.work.dbSync.spec;
            && t.live == r.live && t.work.dbSync.(status := r.work.dbSync.status) == r.work.dbSync
            && t.work.credential == r.work.credential && Dedicated(t) == Dedicated(r)
            && t.phase == (if Dedicated(r) then DeploymentApplied else StatePVCApplied)
            && t.configMap == Some(ConfigMap(ThisDBSync, DesiredIdentity(spec), EffectiveMode(spec)))
            && t.pgPass == Some(PGPass(ThisDBSync, DesiredIdentity(spec), EffectiveMode(spec), r.work.credential.password))
            && t.statePVC == Some(StatePVC(ThisDBSync, Digest(DesiredIdentity(spec)), Some(EffectiveMode(spec))))
            && (Dedicated(r) ==> t.deployment == Some(Deployment(ThisDBSync, 1, Digest(DesiredIdentity(spec)))))
            && (spec.database.Managed? ==>
                  && t.postgresPVC == Some(PostgresPVC(ThisDBSync, Digest(DesiredPostgres(r.work))))
                  && t.postgresDeployment == Some(PostgresDeployment(ThisDBSync, Unset, Digest(DesiredPostgres(r.work)))))
  {
    hide Run, Observed, GatesPass, SidecarGone, Suspend, PostgresFree, ChildrenFree;
    GatesOutcome(r);
    var g := Run(r, GATES);
    RepairsKeepConditions(r, g, ready);
    assert DesiredPostgresSame(g, r) && DesiredPostgresSame(AfterHandoff(g), r);
  }

  predicate DesiredPostgresSame(g: State, r: State) {
    g.work.dbSync.spec == r.work.dbSync.spec &&
    (r.work.dbSync.spec.database.Managed? ==> DesiredPostgres(g.work) == DesiredPostgres(r.work))
  }

  /** A reconcile left to itself gets to its last apply exactly if it resolves its database, the gates pass,
      the other placement's Pods are gone, its managed Postgres is ready and no foreign child is in its way;
      otherwise it has stopped. */
  lemma ReconcileAppliesIff(s: State, incumbent: bool, external: string, generated: string, drift: bool,
                            ready: bool)
    requires s.phase == Idle && Observed(s) && !DataProblem(generated)
    ensures var r := Run(s, Resolving(incumbent, external, generated, drift));
            var t := Run(s, Resolving(incumbent, external, generated, drift) + Applying(ready));
            && OnlyResolves(s.(work := s.work.(dbSync := s.live)), r)
            && (Unhindered(r, ready) <==> ReportEnabled(PatchApplied, t))
            && (Unhindered(r, ready) ==> t == Applied(r))
            && (!Unhindered(r, ready) ==> Stopped(t.phase))
            && (r.phase == Resolved && GatesPass(r) && !HandoffFree(r) ==> t == AfterHandoff(Run(r, GATES)))
  {
    hide Run, Observed, Unhindered, AfterHandoff, GatesPass, HandoffFree, Applied;
    var r := Run(s, Resolving(incumbent, external, generated, drift));
    ResolvingOutcome(s, incumbent, external, generated, drift);
    RunConcat(s, Resolving(incumbent, external, generated, drift), Applying(ready));
    ApplyingOutcome(r, ready);
    if Unhindered(r, ready) {
      AppliedAsAsked(r, ready);
    }
  }

  /** The converse of `OnlyIncumbentsPublish`: an object that does not offer its material to its network does
      after a reconcile left to itself exactly if it asked for a sidecar, was the incumbent, and was not hindered. */
  lemma IncumbentPublishesIff(s: State, incumbent: bool, external: string, generated: string, drift: bool,
                              ready: bool)
    requires s.phase == Idle && Observed(s) && !DataProblem(generated)
    requires !ReadyForAttachment(s.live, s.live.spec.network)
    ensures var r := Run(s, Resolving(incumbent, external, generated, drift));
            var t := Run(s, Resolving(incumbent, external, generated, drift) + Applying(ready) + [Report(PatchApplied)]);
            ReadyForAttachment(t.live, s.live.spec.network) <==>
              EffectiveMode(s.live.spec) == PrimarySidecar && incumbent && Unhindered(r, ready)
  {
    hide Run, Observed, Unhindered, AfterHandoff, GatesPass, HandoffFree, Applied, ReadyForAttachment;
    var calls := Resolving(incumbent, external, generated, drift);
    var r, t := Run(s, calls), Run(s, calls + Applying(ready));
    ReconcileAppliesIff(s, incumbent, external, generated, drift, ready);
    ResolvingOutcome(s, incumbent, external, generated, drift);
    RunConcat(s, calls + Applying(ready), [Report(PatchApplied)]);
    OneStep(t, Report(PatchApplied));
    LiveStays(s, calls + Applying(ready));
    if Unhindered(r, ready) {
      AppliedAsAsked(r, ready);
      UnhinderedIsResolved(r, ready);
      PublishedMaterialIsAttachableIff(t, s.live.spec.network);
    } else {
    }
  }

  lemma PerformKeepsLive(a: Action, s: State)
    requires Enabled(a, s) && !a.Report? && !a.Environment?
    ensures Perform(a, s).live == s.live && Perform(a, s).everReady == s.everReady
  {
  }

  /** Before its report a reconcile leaves the object itself alone. */
  lemma {:induction false} LiveStays(s: State, actions: seq<Action>)
    requires Observed(s) && forall a :: a in actions ==> !a.Report? && !a.Environment?
    ensures Run(s, actions).live == s.live
    decreases actions
  {
    hide Observe, Perform, Enabled;
    if actions != [] {
      var a := actions[0];
      assert a in actions;
      if Enabled(a, s) {
        PerformKeepsLive(a, s);
        Unobserved(s, a);
      }
      assert Step(a, s).live == s.live && Observed(Step(a, s));
      LiveStays(Step(a, s), actions[1..]);
    }
  }

  lemma UnhinderedIsResolved(r: State, ready: bool)
    requires Unhindered(r, ready)
    ensures r.phase == Resolved
  {
  }
}
