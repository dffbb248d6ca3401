/** The other half of the handoff check: a dedicated reconcile that waited for a peer's sidecar goes on
    exactly once no db-sync container of its network is left in a primary Pod. */
module HandoffRelease {
  import opened Fingerprints
  import opened Protocol
  import opened Placement
  import opened MirrorWitness
  import opened WholeReconcile

  // -------------------------------------------------------------------------------------------
  // Any dedicated reconcile

  /** A resolved database, what was accepted is what is asked for, a managed Postgres is ready, and no foreign child
      is in the way. */
  predicate OtherwiseFree(r: State, ready: bool) {
    r.phase == Resolved && GatesPass(r) && PostgresFree(r, ready) && ChildrenFree(r)
  }

  /** The db-sync and Postgres children. */
  predicate SameChildren(s: State, t: State) {
    && t.statePVC == s.statePVC && t.configMap == s.configMap && t.pgPass == s.pgPass && t.deployment == s.deployment
    && t.postgresPVC == s.postgresPVC && t.postgresDeployment == s.postgresDeployment
  }

  /** In every reachable state, whatever the database mode and whatever was accepted: a reconcile of a dedicated
      follower, left to itself, applies its Deployment exactly if nothing else hinders it and no sidecar of
      its network is left; where only a sidecar hinders it, it waits and applies nothing. */
  lemma DedicatedReconcileAppliesIff(start: State, actions: seq<Action>, external: string, generated: string, drift: bool,
                                     ready: bool)
    requires Initial(start) && !DataProblem(generated)
    requires var s := Run(start, actions); s.phase == Idle && EffectiveMode(s.live.spec) == DedicatedFollower
    ensures var s := Run(start, actions);
            var calls := Resolving(true, external, generated, drift);
            var r, t := Run(s, calls), Run(s, calls + Applying(ready));
            && (t.phase == DeploymentApplied <==> OtherwiseFree(r, ready) && SidecarGone(s, s.live.spec.network))
            && (t.phase == DeploymentApplied ==>
                  t.deployment == Some(Deployment(ThisDBSync, 1, Digest(DesiredIdentity(s.live.spec)))))
            && (OtherwiseFree(r, ready) && !SidecarGone(s, s.live.spec.network) ==> t.phase == Waiting && SameChildren(s, t))
  {
    hide Run, Observed, SidecarGone, Applied, GatesPass, PostgresFree, ChildrenFree;
    var s := Run(start, actions);
    InitialIsObserved(start);
    RunsAreObserved(start, actions);
    ReconcileAppliesIff(s, true, external, generated, drift, ready);
    ResolvingOutcome(s, true, external, generated, drift);
    var r := Run(s, Resolving(true, external, generated, drift));
    SidecarsElsewhere(s, r);
    assert HandoffFree(r) == SidecarGone(s, s.live.spec.network);
    if Unhindered(r, ready) {
      AppliedAsAsked(r, ready);
    } else if OtherwiseFree(r, ready) {
      GatesOutcome(r);
      RepairsKeepConditions(r, Run(r, GATES), ready);
    }
  }

  lemma SidecarsElsewhere(s: State, r: State)
    requires r.templates == s.templates && r.sidecarPods == s.sidecarPods
    ensures SidecarGone(r, s.live.spec.network) == SidecarGone(s, s.live.spec.network)
  {
  }

  /** In every reachable state an object locked to what its spec asks for passes the identity and placement
      gates; for a managed database the Postgres gate is left. */
  lemma LockedSpecPassesGatesIff(start: State, actions: seq<Action>, r: State)
    requires Initial(start)
    requires var s := Run(start, actions); OnlyResolves(s.(work := s.work.(dbSync := s.live)), r)
    requires var s := Run(start, actions); var spec := s.live.spec;
             s.statePVC == Some(StatePVC(ThisDBSync, Digest(DesiredIdentity(spec)), Some(EffectiveMode(spec))))
    ensures GatesPass(r) <==>
              (r.work.dbSync.spec.database.Managed? ==> AcceptedPostgres(r) in {Unset, Digest(DesiredPostgres(r.work))})
  {
    hide Run;
    InitialHoldsLock(start);
    RunKeepsLock(start, actions);
  }

  // -------------------------------------------------------------------------------------------
  // A run from an empty cluster

  /** A peer's sidecar runs, and this object's sidecar claim loses to it. */
  function Losing(network: string): seq<Action> {
    [Environment(AttachPeer(network)), Environment(StartSidecarPod(Sidecar(network, false))),
     Gate(Fetch), Gate(CheckPlacement(false)), Report(SuspendBlocked), Report(PatchBlocked)]
  }

  /** The waiting is reported, then the peer's sidecar goes away. */
  function Releasing(network: string): seq<Action> {
    [Report(PatchWaiting), Environment(Detach(Sidecar(network, false))),
     Environment(StopSidecarPods(Sidecar(network, false)))]
  }

  predicate EmptyNamespace(s: State) {
    && Initial(s) && s.statePVC.None? && s.deployment.None? && s.configMap.None? && s.pgPass.None?
    && EffectiveMode(s.live.spec) == PrimarySidecar
  }

  function Lost(s: State): State {
    var peer := Sidecar(s.live.spec.network, false);
    s.(live := s.live.(status := ConditionsStatus(s.live)), work := s.work.(dbSync := s.live),
       templates := s.templates + {peer}, sidecarPods := s.sidecarPods + {peer})
  }

  lemma LosingTheClaim(s: State)
    requires EmptyNamespace(s)
    ensures Run(s, Losing(s.live.spec.network)) == Lost(s)
  {
    hide Run, Enabled, Perform;
    var run := Losing(s.live.spec.network);
    var peer := Sidecar(s.live.spec.network, false);
    PeerStarts(s, run, peer);
    LosingReport(s, run, s.(templates := s.templates + {peer}, sidecarPods := s.sidecarPods + {peer}));
  }

  lemma PeerStarts(s: State, run: seq<Action>, peer: Sidecar)
    requires |run| > 1 && run[0] == Environment(AttachPeer(peer.network)) && run[1] == Environment(StartSidecarPod(peer))
    requires !peer.ours && !s.live.status.material.ready
    ensures Run(s, run[..2]) == s.(templates := s.templates + {peer}, sidecarPods := s.sidecarPods + {peer})
  {
    hide Run;
    var attached := s.(templates := s.templates + {peer});
    NoActions(s);
    assert [] + [run[0]] == run[..1];
    Then(s, [], s, run[0], attached);
    assert run[..1] + [run[1]] == run[..2];
    Then(s, run[..1], attached, run[1], attached.(sidecarPods := s.sidecarPods + {peer}));
  }

  lemma LosingReport(s: State, run: seq<Action>, t: State)
    requires |run| == 6 && run[2] == Gate(Fetch) && run[3] == Gate(CheckPlacement(false))
    requires run[4] == Report(SuspendBlocked) && run[5] == Report(PatchBlocked)
    requires Run(s, run[..2]) == t && t.phase == Idle && t.deployment.None?
    requires EffectiveMode(t.live.spec) == PrimarySidecar && !t.live.status.material.ready
    ensures Run(s, run) == t.(live := t.live.(status := ConditionsStatus(t.live)), work := t.work.(dbSync := t.live))
  {
    hide Run;
    var fetched := t.(phase := Fetched, work := t.work.(dbSync := t.live));
    assert run[..2] + [run[2]] == run[..3];
    Then(s, run[..2], t, run[2], fetched);
    assert run[..3] + [run[3]] == run[..4];
    Then(s, run[..3], fetched, run[3], Goto(fetched, Blocked));
    assert run[..4] + [run[4]] == run[..5];
    Then(s, run[..4], Goto(fetched, Blocked), run[4], Goto(fetched, BlockedSuspended));
    assert run[..5] + [run[5]] == run;
    Then(s, run[..5], Goto(fetched, BlockedSuspended), run[5], PatchStatus(fetched, ConditionsStatus(t.live)));
  }

  function Released(s: State): State {
    var peer := Sidecar(s.work.dbSync.spec.network, false);
    PatchStatus(s, ConditionsStatus(s.work.dbSync))
      .(templates := s.templates - {peer}, sidecarPods := s.sidecarPods - {peer})
  }

  lemma PeerGoesAway(s: State)
    requires s.phase == Waiting
    ensures Run(s, Releasing(s.work.dbSync.spec.network)) == Released(s)
  {
    hide Run;
    var run := Releasing(s.work.dbSync.spec.network);
    var reported := PatchStatus(s, ConditionsStatus(s.work.dbSync));
    var detached := reported.(templates := s.templates - {Sidecar(s.work.dbSync.spec.network, false)});
    NoActions(s);
    assert [] + [run[0]] == run[..1];
    Then(s, [], s, run[0], reported);
    assert run[..1] + [run[1]] == run[..2];
    Then(s, run[..1], reported, run[1], detached);
    assert run[..2] + [run[2]] == run;
    Then(s, run[..2], detached, run[2], Released(s));
  }

  const RECONCILE := Resolving(true, PASSWORD, PASSWORD, false) + Applying(true)

  function Held(network: string, spec: UserSpec): seq<Action> {
    Losing(network) + [Environment(EditSpec(spec))] + RECONCILE
  }

  /** The claim that lost moves to a dedicated follower, waits while the peer's sidecar is there, and has
      its Deployment applied by the next reconcile after it went. */
  lemma LoserWaitsThenRuns(s: State, spec: UserSpec)
    requires EmptyNamespace(s) && spec.network == s.live.spec.network
    requires EffectiveMode(spec) == DedicatedFollower && spec.database.External?
    ensures var held := Run(s, Held(spec.network, spec)); held.phase == Waiting && held.deployment.None?
    ensures var t := Run(s, Held(spec.network, spec) + Releasing(spec.network) + RECONCILE);
            t.phase == DeploymentApplied && t.deployment == Some(Deployment(ThisDBSync, 1, Digest(DesiredIdentity(spec))))
  {
    hide Run, SidecarGone, DesiredIdentity, ReadyToMove;
    var network := spec.network;
    var moved := Disturb(EditSpec(spec), Lost(s));
    LosingTheClaim(s);
    Then(s, Losing(network), Lost(s), Environment(EditSpec(spec)), moved);
    RunConcat(s, Losing(network) + [Environment(EditSpec(spec))], RECONCILE);
    PeerIsThere(s, spec);
    MovingReconcile(moved);
    var held := Goto(AtPlacementGate(moved), Waiting);
    RunConcat(s, Held(network, spec), Releasing(network));
    PeerGoesAway(held);
    RunConcat(s, Held(network, spec) + Releasing(network), RECONCILE);
    PeerIsGone(s, spec);
    MovingReconcile(Released(held));
  }

  /** The object wants a dedicated follower on an external database, has accepted nothing, and has no children. */
  predicate ReadyToMove(s: State) {
    && Fresh(s) && EffectiveMode(s.live.spec) == DedicatedFollower
    && s.live.status.acceptedMode.None? && s.live.status.acceptedIdentity == Unset
    && s.statePVC.None? && s.deployment.None? && s.configMap.None? && s.pgPass.None?
  }

  lemma MovingReconcile(s: State)
    requires ReadyToMove(s)
    ensures SidecarGone(s, s.live.spec.network) ==>
              && Run(s, RECONCILE).phase == DeploymentApplied
              && Run(s, RECONCILE).deployment == Some(Deployment(ThisDBSync, 1, Digest(DesiredIdentity(s.live.spec))))
    ensures !SidecarGone(s, s.live.spec.network) ==> Run(s, RECONCILE) == Goto(AtPlacementGate(s), Waiting)
  {
    hide Run, SidecarGone, Applied;
    var r := Goto(AtPlacementGate(s), Resolved);
    ExternalResolves(s);
    ReconcileAppliesIff(s, true, PASSWORD, PASSWORD, false, true);
    SidecarsElsewhere(s, r);
    GatesOutcome(r);
    if Unhindered(r, true) {
      AppliedAsAsked(r, true);
    }
  }

  lemma ExternalResolves(s: State)
    requires Fresh(s)
    ensures Observed(s) && !DataProblem(PASSWORD)
    ensures Run(s, Resolving(true, PASSWORD, PASSWORD, false)) == Goto(AtPlacementGate(s), Resolved)
  {
    hide Run, Step;
    var calls := Resolving(true, PASSWORD, PASSWORD, false);
    ThreeSteps(s, calls[0], calls[1], calls[2]);
    FetchAndCheck(s, true);
    ExternalSecretIsRead(s);
    RunConcat(s, calls[..3], calls[3..]);
    assert calls[..3] + calls[3..] == calls && calls[..3] == [calls[0], calls[1], calls[2]];
    ResolvedStays(Goto(AtPlacementGate(s), Resolved), calls[3..]);
  }

  lemma ExternalSecretIsRead(s: State)
    requires Fresh(s)
    ensures !DataProblem(PASSWORD) && Observed(s)
    ensures Step(Credential(ResolveExternal(PASSWORD)), s.(work := s.work.(dbSync := s.live), phase := Placed))
            == Goto(AtPlacementGate(s), Resolved)
  {
    Unobserved(s.(work := s.work.(dbSync := s.live), phase := Placed), Credential(ResolveExternal(PASSWORD)));
  }

  lemma PeerIsThere(s: State, spec: UserSpec)
    requires EmptyNamespace(s) && spec.network == s.live.spec.network
    requires EffectiveMode(spec) == DedicatedFollower && spec.database.External?
    ensures var moved := Disturb(EditSpec(spec), Lost(s)); ReadyToMove(moved) && !SidecarGone(moved, spec.network)
  {
    var moved := Disturb(EditSpec(spec), Lost(s));
    assert Sidecar(spec.network, false) in moved.templates + moved.sidecarPods;
  }

  lemma PeerIsGone(s: State, spec: UserSpec)
    requires EmptyNamespace(s) && spec.network == s.live.spec.network
    requires EffectiveMode(spec) == DedicatedFollower && spec.database.External?
    ensures var t := Released(Goto(AtPlacementGate(Disturb(EditSpec(spec), Lost(s))), Waiting));
            ReadyToMove(t) && SidecarGone(t, spec.network) && t.live.spec == spec
  {
    var t := Released(Goto(AtPlacementGate(Disturb(EditSpec(spec), Lost(s))), Waiting));
    forall sidecar | sidecar in t.templates + t.sidecarPods ensures sidecar.network != spec.network {
      assert !sidecar.ours;
      assert sidecar != Sidecar(spec.network, false);
    }
  }
}
