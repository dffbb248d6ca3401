/** What a later reconcile makes of an earlier one: a changed spec is refused exactly where the database would have
    to be recreated, and an unchanged one leaves everything as it is. */
module LaterReconcile {
  import opened Fingerprints
  import opened Protocol
  import opened Placement
  import opened ManagedPostgres
  import opened WholeReconcile
  import opened Decisions
  import opened Resolution

  // -------------------------------------------------------------------------------------------
  // A changed spec

  /** Over every run: once a state PVC was applied for one spec, a reconcile of another passes the identity gate
      exactly if all identity inputs are the same, and then the placement gate exactly if the placement is. */
  lemma SpecChangePassesIff(start: State, before: seq<Action>, between: seq<Action>)
    requires Initial(start) && Run(start, before).phase == StatePVCApplied
    requires Run(start, before + between).phase == PostgresGated
    ensures var s, t := Run(start, before), Run(start, before + between);
            var a, b := s.work.dbSync.spec, t.work.dbSync.spec;
            var u := GateIdentityStep(t);
            && (u.phase == IdentityGated <==> SameIdentityInputs(a, b))
            && (u.phase == IdentityGated ==> (GatePlacementStep(u).phase == PlacementGated <==> SamePlacement(a, b)))
  {
    hide Run;
    InitialHoldsLock(start);
    RunKeepsLock(start, before);
    RunKeepsLock(start, before + between);
    var s, t := Run(start, before), Run(start, before + between);
    RunConcat(start, before, between);
    PinIsWriteOnce(s, between);
    IdentityGateIff(t);
    StampIsTheSpecs(s, t);
  }

  lemma StampIsTheSpecs(s: State, t: State)
    requires LockInvariant(s) && s.phase == StatePVCApplied && LockInvariant(t) && t.phase == PostgresGated
    requires t.statePVC == s.statePVC
    ensures var a, b := s.work.dbSync.spec, t.work.dbSync.spec;
            && OwnsStatePVC(t) && t.statePVC.value.identity.Digest?
            && (StoredFor(t.statePVC.value.identity.of, b) <==> SameIdentityInputs(a, b))
            && (GatePlacementStep(GateIdentityStep(t)).phase == PlacementGated <==> SamePlacement(a, b))
  {
    assert Wants(s.work.dbSync.spec, s.statePVC.value.mode.value);
    var u := GateIdentityStep(t);
    assert AcceptedMode(u, u.work.dbSync) == s.statePVC.value.mode;
  }

  /** The password or, on the generated path, its fingerprint: what stands for a credential in the identity. */
  predicate SameCredential(database: DatabaseMode, a: Secret, b: Secret)
    requires database.Managed?
  {
    if database.authSecretRef.None? then a.fingerprint == b.fingerprint else a.password == b.password
  }

  /** Over every run, with the accepted identity surviving: after an apply on one managed database, a reconcile of
      another passes the Postgres gate exactly if image, database, user, Secret and credential are the same. */
  lemma DatabaseChangePassesIff(start: State, before: seq<Action>, between: seq<Action>, a: ApplyAction)
    requires Initial(start) && Survives(Run(start, before), between)
    requires ApplyEnabled(a, Run(start, before)) && ManagedWork(Run(start, before))
    requires Run(start, before + between).phase == Resolved && ManagedWork(Run(start, before + between))
    ensures var s, t := Run(start, before), Run(start, before + between);
            var was, now := s.work.dbSync.spec.database, t.work.dbSync.spec.database;
            GatePostgresStep(t).phase == PostgresGated <==>
              && was.image == now.image && was.name == now.name && was.user == now.user
              && was.authSecretRef == now.authSecretRef && SameCredential(was, s.work.credential, t.work.credential)
  {
    hide Run, Survives;
    var s, t := Run(start, before), Run(start, before + between);
    ManagedPostgres.InitialHolds(start);
    ManagedPostgres.RunKeeps(start, before);
    RunConcat(start, before, between);
    CreateOnce(s, between);
    SurvivalAccepts(s, between);
    StampIsAccepted(s, DesiredPostgres(s.work));
    PostgresGateIff(t);
    AcceptedPostgresIs(t, AcceptedPostgres(t));
    DesiredPostgresIs(s);
    AllAcceptedAre(t, DesiredPostgres(s.work));
  }

  lemma AllAcceptedAre(t: State, stamp: PostgresIdentity)
    requires AcceptedPostgres(t) == Digest(stamp)
    ensures forall identity :: PostgresIsAccepted(t, identity) <==> identity == Digest(stamp)
  {
    forall identity ensures PostgresIsAccepted(t, identity) <==> identity == Digest(stamp) {
      AcceptedPostgresIs(t, identity);
    }
  }

  // -------------------------------------------------------------------------------------------
  // An unchanged spec

  /** A reconcile from the fetch to the applied status. */
  function Whole(incumbent: bool, external: string, generated: string, drift: bool, ready: bool): seq<Action> {
    Resolving(incumbent, external, generated, drift) + Applying(ready) + [Report(PatchApplied)]
  }

  /** What the applies leave alone. */
  lemma AppliesTouchChildrenOnly(r: State, ready: bool)
    requires Unhindered(r, ready) && Observed(r)
    ensures var t := Applied(r);
            && t == r.(phase := t.phase, work := t.work, configMap := t.configMap, pgPass := t.pgPass,
                       statePVC := t.statePVC, deployment := t.deployment, postgresPVC := t.postgresPVC,
                       postgresDeployment := t.postgresDeployment)
            && (!Dedicated(r) ==> t.deployment == Suspend(r.deployment))
            && (r.work.dbSync.spec.database.External? ==>
                  t.postgresPVC == r.postgresPVC && t.postgresDeployment == r.postgresDeployment)
  {
    hide Run, Observed, GatesPass, SidecarGone, Suspend, PostgresFree, ChildrenFree, DesiredIdentity, DesiredPostgres;
    GatesOutcome(r);
  }

  /** The state an unhindered reconcile ends in. */
  function Done(r: State): State {
    var t := Applied(r);
    Observe(t.(live := t.live.(status := AppliedStatus(t.work.dbSync)), phase := Idle))
  }

  lemma WholeEndsDone(s: State, incumbent: bool, external: string, generated: string, drift: bool, ready: bool)
    requires s.phase == Idle && Observed(s) && Usable(generated)
    requires Unhindered(Run(s, Resolving(incumbent, external, generated, drift)), ready)
    ensures var r := Run(s, Resolving(incumbent, external, generated, drift));
            && Run(s, Whole(incumbent, external, generated, drift, ready)) == Done(r) && Observed(Done(r))
  {
    hide Run, Observed, Unhindered, Applied, AppliedStatus, Observe;
    var calls := Resolving(incumbent, external, generated, drift);
    ReconcileAppliesIff(s, incumbent, external, generated, drift, ready);
    RunConcat(s, calls + Applying(ready), [Report(PatchApplied)]);
    var t := Run(s, calls + Applying(ready));
    OneStep(t, Report(PatchApplied));
    StepIsObserved(Report(PatchApplied), t);
  }

  lemma StepIsObserved(a: Action, t: State)
    requires Enabled(a, t)
    ensures Observed(Step(a, t))
  {
  }

  /** The resolved credential is determined by what it stands on. */
  lemma SamePasswordAgain(p: State, r: State, q: State, v: State, external: string, generated: string, other: string)
    requires Resolves(p, r, external, generated) && r.phase == Resolved
    requires q.phase == p.phase && q.work.dbSync.spec == p.work.dbSync.spec && q.secrets == r.secrets
    requires Resolves(q, v, external, other)
    ensures v.phase == Resolved && v.work.credential.password == r.work.credential.password
    ensures v.secrets == r.secrets && v.generated == q.generated
    ensures p.work.dbSync.spec.database.Managed? && p.work.dbSync.spec.database.authSecretRef.None? ==>
              v.work.credential == r.work.credential
  {
    hide PostgresIsAccepted;
    var password := r.work.credential.password;
    assert ResolvesTo(p, p.work.dbSync.spec.database, external, generated, password);
    assert ResolvesTo(q, q.work.dbSync.spec.database, external, other, password);
  }

  /** `v` has resolved its database, with the same outcome as `r`, where the reconcile of `r` came to its end. */
  predicate Follows(r: State, v: State) {
    && OnlyResolves(Done(r).(work := Done(r).work.(dbSync := Done(r).live)), v)
    && v.phase == Resolved && v.secrets == r.secrets && v.generated == r.generated
    && v.work.credential.password == r.work.credential.password && DesiredPostgresSame(v, r)
    && r.work.dbSync.spec == r.live.spec && r.work.dbSync.generation == r.live.generation
  }

  /** What follows from it, said on the state left behind. */
  lemma FollowingState(r: State, v: State, ready: bool)
    requires Unhindered(r, ready) && Observed(r) && Follows(r, v)
    ensures var t := Applied(r);
            && v == t.(phase := Resolved, live := v.live, everReady := v.everReady, work := v.work,
                       secrets := r.secrets, generated := r.generated)
            && v.live == t.live.(status := AppliedStatus(t.work.dbSync)) && v.work.dbSync == v.live
            && v.everReady == Done(r).everReady
            && t.live == r.live && t.work.dbSync.spec == r.work.dbSync.spec
            && t.work.dbSync.generation == r.live.generation && v.work.dbSync.spec == r.work.dbSync.spec
  {
    hide Run, Observed, Observe, Unhindered, Applied, AppliedStatus, DesiredIdentity, DesiredPostgres;
    DoneIs(r);
    AppliedAsAsked(r, ready);
    AppliesTouchChildrenOnly(r, ready);
  }

  /** After an unhindered reconcile the next one is not hindered either. */
  lemma NextIsUnhindered(r: State, v: State, ready: bool)
    requires Unhindered(r, ready) && Observed(r) && Follows(r, v)
    ensures Unhindered(v, ready)
  {
    hide Run, Observed, Observe, Applied, SidecarGone, Suspend, DesiredIdentity, DesiredPostgres, Follows, GatesPass;
    FollowingState(r, v, ready);
    AppliedAsAsked(r, ready);
    AppliesTouchChildrenOnly(r, ready);
    SidecarsAsBefore(r, v);
    FollowersAgree(r, v);
    GatesPassAgain(r, v);
  }

  lemma FollowersAgree(r: State, v: State)
    requires Follows(r, v)
    ensures DesiredPostgresSame(v, r) && v.phase == Resolved && v.work.credential.password == r.work.credential.password
  {
  }

  lemma SidecarsAsBefore(r: State, v: State)
    requires v.templates == r.templates && v.sidecarPods == r.sidecarPods
    ensures forall network :: SidecarGone(v, network) == SidecarGone(r, network)
  {
  }

  lemma DoneIs(r: State)
    ensures var t := Applied(r); var d := Done(r);
            d == t.(live := t.live.(status := AppliedStatus(t.work.dbSync)), phase := Idle, everReady := d.everReady)
  {
    hide Applied, AppliedStatus;
  }

  lemma GatesPassAgain(r: State, v: State)
    requires v.work.dbSync.spec == r.work.dbSync.spec
    requires var spec := r.work.dbSync.spec;
             v.statePVC == Some(StatePVC(ThisDBSync, Digest(DesiredIdentity(spec)), Some(EffectiveMode(spec))))
    requires v.work.dbSync.status.acceptedMode == Some(EffectiveMode(r.work.dbSync.spec))
    requires DesiredPostgresSame(v, r)
    requires ManagedWork(r) ==> v.postgresPVC == Some(PostgresPVC(ThisDBSync, Digest(DesiredPostgres(r.work))))
    ensures GatesPass(v)
  {
  }

  /** A reconcile that came to its end changes nothing when it is repeated: the object, its status, its children and
      the Secrets stay as they are, whatever password the generator would have. */
  lemma ReconcileIsIdempotent(s: State, incumbent: bool, external: string, generated: string, drift: bool, ready: bool,
                              other: string, otherDrift: bool)
    requires s.phase == Idle && Observed(s) && Usable(generated) && Usable(other)
    requires Unhindered(Run(s, Resolving(incumbent, external, generated, drift)), ready)
    ensures var done := Run(s, Whole(incumbent, external, generated, drift, ready));
            var again := Run(done, Whole(incumbent, external, other, otherDrift, ready));
            again == done.(work := again.work)
  {
    hide Run, Observed, Unhindered, Applied, Resolves, AppliedStatus, Done;
    var r := Run(s, Resolving(incumbent, external, generated, drift));
    var done := Done(r);
    var v := Run(done, Resolving(incumbent, external, other, otherDrift));
    WholeEndsDone(s, incumbent, external, generated, drift, ready);
    ResolvingOutcome(s, incumbent, external, generated, drift);
    ResolvesIff(s, incumbent, external, generated, drift);
    UnhinderedIsResolved(r, ready);
    AppliedAsAsked(r, ready);
    AppliesTouchChildrenOnly(r, ready);
    DoneIs(r);
    ResolvingOutcome(done, incumbent, external, other, otherDrift);
    ResolvesIff(done, incumbent, external, other, otherDrift);
    SamePasswordAgain(Checked(s), r, Checked(done), v, external, generated, other);
    SameStamp(r, v);
    assert Follows(r, v);
    NextIsUnhindered(r, v, ready);
    WholeEndsDone(done, incumbent, external, other, otherDrift, ready);
    SameEnd(r, v, ready);
  }

  lemma SameStamp(r: State, v: State)
    requires v.work.dbSync.spec == r.work.dbSync.spec && v.work.credential.password == r.work.credential.password
    requires ManagedWork(r) && r.work.dbSync.spec.database.authSecretRef.None? ==> v.work.credential == r.work.credential
    ensures DesiredPostgresSame(v, r)
  {
  }

  lemma SameStatus(x: DBSync, y: DBSync)
    requires x.spec == y.spec && x.generation == y.generation
    ensures AppliedStatus(x) == AppliedStatus(y)
  {
  }

  lemma SuspendedStays(deployment: Option<Deployment>)
    ensures Suspend(Suspend(deployment)) == Suspend(deployment)
  {
  }

  lemma SameEnd(r: State, v: State, ready: bool)
    requires Unhindered(r, ready) && Observed(r) && Unhindered(v, ready) && Observed(v) && Follows(r, v)
    ensures Done(v) == Done(r).(work := Done(v).work)
  {
    hide Run, Observed, Observe, Applied, SidecarGone, GatesPass, PostgresFree, ChildrenFree, Unhindered, Follows;
    hide AppliedStatus, DesiredIdentity, DesiredPostgres, Suspend;
    FollowingState(r, v, ready);
    FollowersAgree(r, v);
    AppliedAsAsked(r, ready);
    AppliesTouchChildrenOnly(r, ready);
    AppliedAsAsked(v, ready);
    AppliesTouchChildrenOnly(v, ready);
    SuspendedStays(r.deployment);
    SameStatus(Applied(v).work.dbSync, Applied(r).work.dbSync);
    DoneIs(r);
    DoneIs(v);
    ObservedAgain(v);
  }

  lemma ObservedAgain(v: State)
    requires Observed(v) && Applied(v).live == v.live && Applied(v).everReady == v.everReady
    requires AppliedStatus(Applied(v).work.dbSync) == v.live.status
    ensures Done(v).everReady == v.everReady
  {
    hide Applied, AppliedStatus;
  }

  // -------------------------------------------------------------------------------------------
  // What an unhindered reconcile leaves behind, on the fields of the spec

  predicate LeavesMaterial(d: State, spec: UserSpec, password: string) {
    && d.configMap.Some? && d.configMap.value.owner == ThisDBSync
    && StoredFor(d.configMap.value.identity, spec) && Wants(spec, d.configMap.value.mode)
    && d.pgPass.Some? && d.pgPass.value.owner == ThisDBSync && d.pgPass.value.password == password
    && StoredFor(d.pgPass.value.identity, spec) && Wants(spec, d.pgPass.value.mode)
  }

  predicate LeavesWorkload(d: State, spec: UserSpec) {
    && OwnsStatePVC(d) && d.statePVC.value.identity.Digest? && StoredFor(d.statePVC.value.identity.of, spec)
    && d.statePVC.value.mode.Some? && Wants(spec, d.statePVC.value.mode.value)
    && (Wants(spec, DedicatedFollower) ==>
          && d.deployment.Some? && d.deployment.value.owner == ThisDBSync && d.deployment.value.replicas == 1
          && d.deployment.value.identity == d.statePVC.value.identity)
    && (Wants(spec, PrimarySidecar) && d.deployment.Some? && d.deployment.value.owner == ThisDBSync ==>
          d.deployment.value.replicas == 0)
  }

  predicate LeavesPostgresFor(d: State, database: DatabaseMode, credential: Secret) {
    database.Managed? ==>
      && OwnsPostgresPVC(d) && d.postgresPVC.value.identity.Digest?
      && ComputedFor(d.postgresPVC.value.identity.of, database, credential)
      && OwnsPostgresDeployment(d) && d.postgresDeployment.value.templateIdentity == d.postgresPVC.value.identity
  }

  /** The children carry the spec's identity inputs and placement, the password file the password of the resolved
      database, and a managed Postgres the identity computed for it. */
  lemma SpecIsLeftBehind(s: State, incumbent: bool, external: string, generated: string, drift: bool, ready: bool)
    requires s.phase == Idle && Observed(s) && Usable(generated)
    requires Unhindered(Run(s, Resolving(incumbent, external, generated, drift)), ready)
    ensures var r := Run(s, Resolving(incumbent, external, generated, drift));
            var d := Run(s, Whole(incumbent, external, generated, drift, ready));
            var spec := s.live.spec;
            && ResolvesTo(Checked(s), spec.database, external, generated, r.work.credential.password)
            && d.live.spec == spec && d.live.generation == s.live.generation && d.phase == Idle && d.secrets == r.secrets
            && LeavesMaterial(d, spec, r.work.credential.password) && LeavesWorkload(d, spec)
            && LeavesPostgresFor(d, spec.database, r.work.credential)
  {
    hide Run, Observed, Unhindered, Applied, AppliedStatus, Done, Observe, LeavesMaterial, LeavesWorkload, LeavesPostgresFor;
    hide PostgresIsAccepted;
    var r := Run(s, Resolving(incumbent, external, generated, drift));
    WholeEndsDone(s, incumbent, external, generated, drift, ready);
    ResolvingOutcome(s, incumbent, external, generated, drift);
    ResolvesIff(s, incumbent, external, generated, drift);
    UnhinderedIsResolved(r, ready);
    ChildrenSayTheSpec(r, ready);
    ObjectIsKept(r, ready);
  }

  lemma ObjectIsKept(r: State, ready: bool)
    requires Unhindered(r, ready) && Observed(r)
    ensures var d := Done(r);
            d.live.spec == r.live.spec && d.live.generation == r.live.generation && d.phase == Idle && d.secrets == r.secrets
  {
    hide Run, Observed, Unhindered, Applied, AppliedStatus, Done, Observe;
    AppliedAsAsked(r, ready);
    AppliesTouchChildrenOnly(r, ready);
    DoneIs(r);
  }

  lemma ChildrenSayTheSpec(r: State, ready: bool)
    requires Unhindered(r, ready) && Observed(r)
    ensures var d := Done(r); var spec := r.work.dbSync.spec;
            && LeavesMaterial(d, spec, r.work.credential.password) && LeavesWorkload(d, spec)
            && LeavesPostgresFor(d, spec.database, r.work.credential)
  {
    hide Run, Observed, Unhindered, Applied, AppliedStatus, Done, Observe, DesiredIdentity, DesiredPostgres, EffectiveMode;
    hide StoredFor, ComputedFor, Wants, Dedicated;
    AppliedAsAsked(r, ready);
    AppliesTouchChildrenOnly(r, ready);
    DoneIs(r);
    SpecIsDesired(r);
    PlacementsDiffer(r.work.dbSync.spec);
  }

  lemma PlacementsDiffer(spec: UserSpec)
    ensures Wants(spec, DedicatedFollower) ==> !Wants(spec, PrimarySidecar)
  {
  }

  lemma SpecIsDesired(r: State)
    ensures var spec := r.work.dbSync.spec;
            && StoredFor(DesiredIdentity(spec), spec) && Wants(spec, EffectiveMode(spec))
            && (Dedicated(r) <==> !Wants(spec, PrimarySidecar))
            && (spec.database.Managed? ==> ComputedFor(DesiredPostgres(r.work), spec.database, r.work.credential))
  {
  }
}
