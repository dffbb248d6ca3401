/** What the gates and the resolution of the database decide, said on the state they find and on the fields
    the user writes. */
module Decisions {
  import opened Fingerprints
  import opened Planner
  import opened Protocol
  import opened Text

  // -------------------------------------------------------------------------------------------
  // The state as it is found

  predicate OwnsStatePVC(s: State) {
    s.statePVC.Some? && s.statePVC.value.owner == ThisDBSync
  }

  predicate OwnsPostgresPVC(s: State) {
    s.postgresPVC.Some? && s.postgresPVC.value.owner == ThisDBSync
  }

  predicate OwnsPostgresDeployment(s: State) {
    s.postgresDeployment.Some? && s.postgresDeployment.value.owner == ThisDBSync
  }

  /** Two sets of identity inputs agree, the referenced network taking the place of the network name. */
  predicate SameIdentityInputs(a: UserSpec, b: UserSpec) {
    && a.network == b.network
    && a.inputs.requiresNetworkMagic == b.inputs.requiresNetworkMagic
    && a.inputs.networkArtifactHash == b.inputs.networkArtifactHash && a.inputs.image == b.inputs.image
    && a.inputs.host == b.inputs.host && a.inputs.port == b.inputs.port && a.inputs.name == b.inputs.name
    && a.inputs.user == b.inputs.user && a.inputs.ledgerBackend == b.inputs.ledgerBackend
    && a.inputs.insert == b.inputs.insert
  }

  /** `stored` is the identity of `spec`. */
  predicate StoredFor(stored: DatabaseIdentity, spec: UserSpec) {
    SameIdentityInputs(UserSpec(spec.placement, stored.networkName, stored, spec.database), spec)
  }

  predicate SamePlacement(a: UserSpec, b: UserSpec) {
    (if a.placement.None? then DedicatedFollower else a.placement.value)
    == if b.placement.None? then DedicatedFollower else b.placement.value
  }

  predicate Wants(spec: UserSpec, mode: Mode) {
    if spec.placement.None? then mode == DedicatedFollower else mode == spec.placement.value
  }

  // -------------------------------------------------------------------------------------------
  // The identity gate

  /** The gate passes where nothing is stored, and otherwise exactly if the stored identity is the spec's, input by
      input; any other text in its place is refused. */
  lemma IdentityGateIff(s: State)
    requires s.phase == PostgresGated
    ensures GateIdentityStep(s).phase == IdentityGated <==>
              || !OwnsStatePVC(s) || s.statePVC.value.identity == Unset
              || (s.statePVC.value.identity.Digest? && StoredFor(s.statePVC.value.identity.of, s.work.dbSync.spec))
    ensures GateIdentityStep(s).phase in {IdentityGated, Blocked}
    ensures GateIdentityStep(s).work.dbSync.spec == s.work.dbSync.spec
  {
  }

  // -------------------------------------------------------------------------------------------
  // The placement gate

  /** The placement the gate takes for accepted: the status, then the state PVC; without either, and once any
      identity was accepted, the shape of the workload, then the last published placement. */
  predicate PlacementIsAccepted(s: State, mode: Mode) {
    var x := s.work.dbSync;
    if x.status.acceptedMode.Some? then x.status.acceptedMode.value == mode
    else if OwnsStatePVC(s) && s.statePVC.value.mode.Some? then s.statePVC.value.mode.value == mode
    else if x.status.acceptedIdentity == Unset && (!OwnsStatePVC(s) || s.statePVC.value.identity == Unset) then false
    else if Sidecar(x.spec.network, true) in s.templates || Sidecar(x.spec.network, true) in s.sidecarPods then
      mode == PrimarySidecar
    else if s.deployment.Some? && s.deployment.value.owner == ThisDBSync then mode == DedicatedFollower
    else x.status.placement.Some? && x.status.placement.value.mode == mode
  }

  /** The gate passes exactly if no other placement than the wanted one is accepted, and notes the accepted one in
      its copy of the status. */
  lemma PlacementGateIff(s: State)
    requires s.phase == IdentityGated
    ensures var t := GatePlacementStep(s);
            && t.phase in {PlacementGated, Blocked}
            && (t.phase == PlacementGated <==>
                  forall mode :: PlacementIsAccepted(s, mode) ==> Wants(s.work.dbSync.spec, mode))
            && (forall mode :: PlacementIsAccepted(s, mode) ==> t.work.dbSync.status.acceptedMode == Some(mode))
            && t.work.dbSync.spec == s.work.dbSync.spec
  {
    var accepted := AcceptedMode(s, s.work.dbSync);
    forall mode ensures PlacementIsAccepted(s, mode) <==> accepted == Some(mode) {
    }
    assert accepted.Some? ==> PlacementIsAccepted(s, accepted.value);
  }

  // -------------------------------------------------------------------------------------------
  // The Postgres gate

  /** The three places an accepted Postgres identity is read from. */
  predicate PostgresIsAccepted(s: State, identity: Fingerprint<PostgresIdentity>) {
    if OwnsPostgresPVC(s) && s.postgresPVC.value.identity != Unset then identity == s.postgresPVC.value.identity
    else if OwnsPostgresDeployment(s) && s.postgresDeployment.value.identity != Unset then
      identity == s.postgresDeployment.value.identity
    else
      && OwnsPostgresDeployment(s) && s.postgresDeployment.value.templateIdentity != Unset
      && identity == s.postgresDeployment.value.templateIdentity
  }

  lemma AcceptedPostgresIs(s: State, identity: Fingerprint<PostgresIdentity>)
    ensures PostgresIsAccepted(s, identity) <==> identity != Unset && AcceptedPostgres(s) == identity
  {
  }

  /** Whether `stored` was computed for this managed database, resolved to this Secret. */
  predicate ComputedFor(stored: PostgresIdentity, database: DatabaseMode, credential: Secret)
    requires database.Managed?
  {
    && stored.image == database.image && stored.name == database.name && stored.user == database.user
    && (match database.authSecretRef
        case None =>
          !stored.provided && stored.secretName == "dbsync-postgres-auth" && stored.version == credential.fingerprint
        case Some(name) => stored.provided && stored.secretName == name && stored.version == Digest(credential.password))
  }

  /** Bootstrap inputs of a managed Postgres may not change: the gate passes an external database, and a managed one
      exactly if every identity accepted was computed for it and for the credential in use. */
  lemma PostgresGateIff(s: State)
    requires s.phase == Resolved
    ensures var t := GatePostgresStep(s); var database := s.work.dbSync.spec.database;
            && t == s.(phase := t.phase) && t.phase in {PostgresGated, Blocked}
            && (database.External? ==> t.phase == PostgresGated)
            && (database.Managed? ==>
                  (t.phase == PostgresGated <==>
                     forall identity :: PostgresIsAccepted(s, identity) ==>
                       identity.Digest? && ComputedFor(identity.of, database, s.work.credential)))
  {
    forall identity ensures PostgresIsAccepted(s, identity) <==> identity != Unset && AcceptedPostgres(s) == identity {
      AcceptedPostgresIs(s, identity);
    }
    if s.work.dbSync.spec.database.Managed? {
      DesiredPostgresIs(s);
      assert AcceptedPostgres(s) != Unset ==> PostgresIsAccepted(s, AcceptedPostgres(s));
    }
  }

  lemma DesiredPostgresIs(s: State)
    requires s.work.dbSync.spec.database.Managed?
    ensures forall stored ::
              ComputedFor(stored, s.work.dbSync.spec.database, s.work.credential) <==> stored == DesiredPostgres(s.work)
  {
  }

  // -------------------------------------------------------------------------------------------
  // The reports

  /** The name under which status shows the generated Secret, if there is one. */
  predicate ShowsSecret(status: Status, database: DatabaseMode) {
    status.authSecretName == match database
                             case Managed(_, _, _, None) => "dbsync-postgres-auth"
                             case _ => ""
  }

  /** A report of waiting or of a blocked reconcile takes the offer back and leaves alone what was accepted. */
  lemma WaitingIsReported(s: State, a: ReportAction)
    requires a == PatchWaiting || a == PatchBlocked
    ensures var x := s.work.dbSync; var t := PerformReport(a, s); var status := t.live.status;
            && t == s.(live := s.live.(status := status), phase := Idle)
            && status.observedGeneration == x.generation && status.material == Material(false, x.generation)
            && status.placement.Some? && Wants(x.spec, status.placement.value.mode)
            && status.placement.value.sidecarNetwork.None?
            && status.acceptedIdentity == x.status.acceptedIdentity && status.acceptedMode == x.status.acceptedMode
            && status.authSecretName == x.status.authSecretName
  {
  }

  /** A report of a Postgres not ready yet shows the stored identity and the Secret as well. */
  lemma PendingPostgresIsReported(s: State)
    ensures var x := s.work.dbSync; var t := PerformReport(PatchPostgresPending, s); var status := t.live.status;
            && t == s.(live := s.live.(status := status), phase := Idle)
            && status.observedGeneration == x.generation && status.material == Material(false, x.generation)
            && status.placement.Some? && Wants(x.spec, status.placement.value.mode)
            && status.placement.value.sidecarNetwork.None?
            && status.acceptedIdentity == (if OwnsStatePVC(s) then s.statePVC.value.identity else Unset)
            && status.acceptedMode == x.status.acceptedMode && ShowsSecret(status, x.spec.database)
  {
  }

  /** The report of success shows what was accepted, and offers the material of a sidecar to its network. */
  lemma SuccessIsReported(s: State)
    ensures var x := s.work.dbSync; var t := PerformReport(PatchApplied, s); var status := t.live.status;
            && t == s.(live := s.live.(status := status), phase := Idle)
            && status.observedGeneration == x.generation
            && status.acceptedIdentity.Digest? && StoredFor(status.acceptedIdentity.of, x.spec)
            && status.acceptedMode.Some? && Wants(x.spec, status.acceptedMode.value)
            && status.placement == Some(PlacementStatus(status.acceptedMode.value,
                                          if Wants(x.spec, PrimarySidecar) then Some(x.spec.network) else None))
            && status.material == Material(Wants(x.spec, PrimarySidecar), x.generation)
            && ShowsSecret(status, x.spec.database)
  {
  }

  /** An offer is taken for the network it names, and only while the object and the condition have both been observed at
      the latest generation. */
  lemma OfferIsTakenIff(x: DBSync, network: string)
    ensures ReadyForAttachment(x, network) <==>
              && x.generation <= x.status.observedGeneration && x.generation <= x.status.material.observedGeneration
              && x.status.material.ready && x.status.placement == Some(PlacementStatus(PrimarySidecar, Some(network)))
  {
  }

  /** Suspending, before a handoff or on the blocked path, scales an owned Deployment to zero and leaves the rest of it,
      any other Deployment, and its absence as they are. */
  lemma SuspensionScalesDown(s: State)
    ensures var t := PerformHandoff(SuspendForHandoff, s); var u := PerformReport(SuspendBlocked, s);
            && t == s.(phase := HandoffSuspended, deployment := t.deployment)
            && u == s.(phase := BlockedSuspended, deployment := t.deployment)
            && (s.deployment.None? || s.deployment.value.owner != ThisDBSync ==> t.deployment == s.deployment)
            && (s.deployment.Some? && s.deployment.value.owner == ThisDBSync ==>
                  t.deployment == Some(Deployment(ThisDBSync, 0, s.deployment.value.identity)))
  {
  }
}
