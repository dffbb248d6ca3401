/** The managed Postgres password is create-once. What every run keeps about the credential, and
    the one window in which a user can slip another password past the checks. */
module ManagedPostgres {
  import opened Fingerprints
  import opened Protocol

  // -------------------------------------------------------------------------------------------
  // The invariant

  predicate OwnsPVC(s: State) {
    s.postgresPVC.Some? && s.postgresPVC.value.owner == ThisDBSync
  }

  predicate OwnsDeployment(s: State) {
    s.postgresDeployment.Some? && s.postgresDeployment.value.owner == ThisDBSync
  }

  /** Every owned Postgres child was stamped with `identity`. */
  predicate StampedWith(s: State, identity: PostgresIdentity) {
    && (OwnsPVC(s) ==> s.postgresPVC.value.identity == Digest(identity))
    && (OwnsDeployment(s) ==>
          && s.postgresDeployment.value.identity == Unset
          && s.postgresDeployment.value.templateIdentity == Digest(identity))
  }

  predicate BeyondPostgresGate(phase: Phase) {
    || phase == PostgresGated || phase == IdentityGated || phase == PlacementGated
    || phase == HandoffSuspended || phase == HandedOff || phase == PostgresPVCApplied
    || phase == PostgresApplied || phase == PostgresPending || phase == ReadyToApply
    || phase == ConfigMapApplied || phase == PGPassApplied || phase == StatePVCApplied
    || phase == DeploymentApplied
  }

  predicate ManagedWork(s: State) {
    s.work.dbSync.spec.database.Managed?
  }

  /** Both stamps agree, and beyond the gate they agree with the reconcile. */
  predicate PostgresInvariant(s: State) {
    && (OwnsPVC(s) ==> s.postgresPVC.value.identity.Digest? && StampedWith(s, s.postgresPVC.value.identity.of))
    && (OwnsDeployment(s) ==>
          && s.postgresDeployment.value.templateIdentity.Digest?
          && StampedWith(s, s.postgresDeployment.value.templateIdentity.of))
    && (BeyondPostgresGate(s.phase) && ManagedWork(s) ==> StampedWith(s, DesiredPostgres(s.work)))
  }

  lemma AcceptedIsTheStamp(s: State)
    requires PostgresInvariant(s)
    ensures AcceptedPostgres(s) == Unset <==> !OwnsPVC(s) && !OwnsDeployment(s)
    ensures AcceptedPostgres(s) != Unset ==> AcceptedPostgres(s).Digest? && StampedWith(s, AcceptedPostgres(s).of)
  {
  }

  // -------------------------------------------------------------------------------------------
  // Every action keeps it

  /** No Postgres child is written and the reconcile does not pass the gate. */
  predicate LeavesPostgres(s: State, t: State) {
    && t.postgresPVC == s.postgresPVC && t.postgresDeployment == s.postgresDeployment
    && (BeyondPostgresGate(t.phase) ==>
          && BeyondPostgresGate(s.phase) && t.work.credential == s.work.credential
          && t.work.dbSync.spec == s.work.dbSync.spec)
  }

  lemma LeavingKeeps(s: State, t: State)
    requires PostgresInvariant(s) && LeavesPostgres(s, t)
    ensures PostgresInvariant(t)
  {
  }

  lemma GatePostgresKeeps(s: State)
    requires PostgresInvariant(s) && s.phase == Resolved
    ensures PostgresInvariant(GatePostgresStep(s))
  {
    AcceptedIsTheStamp(s);
  }

  lemma OtherGatesLeave(a: GateAction, s: State)
    requires GateEnabled(a, s) && !a.GatePostgres?
    ensures LeavesPostgres(s, PerformGate(a, s))
  {
  }

  lemma CredentialsLeave(a: CredentialAction, s: State)
    requires CredentialEnabled(a, s)
    ensures LeavesPostgres(s, PerformCredential(a, s))
  {
  }

  lemma PostgresAppliesKeep(a: ApplyAction, s: State)
    requires PostgresInvariant(s) && ApplyEnabled(a, s)
    requires a.ApplyPostgresPVC? || a.ApplyPostgresDeployment?
    ensures PostgresInvariant(PerformApply(a, s))
  {
  }

  lemma OtherAppliesLeave(a: ApplyAction, s: State)
    requires ApplyEnabled(a, s) && !a.ApplyPostgresPVC? && !a.ApplyPostgresDeployment?
    ensures LeavesPostgres(s, PerformApply(a, s))
  {
  }

  lemma ReportsLeave(a: ReportAction, s: State)
    requires ReportEnabled(a, s)
    ensures LeavesPostgres(s, PerformReport(a, s))
  {
  }

  lemma DisturbKeeps(e: EnvironmentAction, s: State)
    requires PostgresInvariant(s)
    ensures PostgresInvariant(Disturb(e, s))
  {
  }

  lemma PerformKeeps(a: Action, s: State)
    requires PostgresInvariant(s) && Enabled(a, s)
    ensures PostgresInvariant(Perform(a, s))
  {
    match a
    case Gate(gate) =>
      if gate.GatePostgres? { GatePostgresKeeps(s); }
      else { OtherGatesLeave(gate, s); LeavingKeeps(s, PerformGate(gate, s)); }
    case Credential(credential) => CredentialsLeave(credential, s); LeavingKeeps(s, PerformCredential(credential, s));
    case Handoff(handoff) => LeavingKeeps(s, PerformHandoff(handoff, s));
    case Apply(apply) =>
      if apply.ApplyPostgresPVC? || apply.ApplyPostgresDeployment? { PostgresAppliesKeep(apply, s); }
      else { OtherAppliesLeave(apply, s); LeavingKeeps(s, PerformApply(apply, s)); }
    case Report(report) => ReportsLeave(report, s); LeavingKeeps(s, PerformReport(report, s));
    case Environment(environment) => DisturbKeeps(environment, s);
  }

  lemma StepKeeps(a: Action, s: State)
    requires PostgresInvariant(s)
    ensures PostgresInvariant(Step(a, s))
  {
    if Enabled(a, s) {
      PerformKeeps(a, s);
      LeavingKeeps(Perform(a, s), Observe(Perform(a, s)));
    }
  }

  lemma InitialHolds(s: State)
    requires Initial(s)
    ensures PostgresInvariant(s)
  {
  }

  lemma {:induction false} RunKeeps(s: State, actions: seq<Action>)
    requires PostgresInvariant(s)
    ensures PostgresInvariant(Run(s, actions))
    decreases actions
  {
    if actions != [] {
      StepKeeps(actions[0], s);
      RunKeeps(Step(actions[0], s), actions[1..]);
    }
  }

  // -------------------------------------------------------------------------------------------
  // Create-once

  /** A password is generated only while nothing is accepted, and then exactly one. */
  lemma GeneratesOnlyUnaccepted(a: Action, s: State)
    ensures Step(a, s).generated == s.generated || (AcceptedPostgres(s) == Unset && Step(a, s).generated == s.generated + 1)
  {
    if Enabled(a, s) && a.Credential? {
      CredentialsGenerateOnlyUnaccepted(a.credential, s);
    }
  }

  lemma CredentialsGenerateOnlyUnaccepted(a: CredentialAction, s: State)
    requires CredentialEnabled(a, s)
    ensures PerformCredential(a, s).generated == s.generated
            || (AcceptedPostgres(s) == Unset && PerformCredential(a, s).generated == s.generated + 1)
  {
  }

  lemma LeavingKeepsStamp(s: State, t: State, identity: PostgresIdentity)
    requires StampedWith(s, identity) && LeavesPostgres(s, t)
    ensures StampedWith(t, identity)
  {
  }

  lemma DisturbKeepsStamp(e: EnvironmentAction, s: State, identity: PostgresIdentity)
    requires StampedWith(s, identity)
    ensures StampedWith(Disturb(e, s), identity)
  {
  }

  lemma PostgresAppliesStamp(a: ApplyAction, s: State)
    requires ApplyEnabled(a, s) && ManagedWork(s) && StampedWith(s, DesiredPostgres(s.work))
    ensures StampedWith(PerformApply(a, s), DesiredPostgres(s.work))
  {
  }

  lemma PerformKeepsStamp(a: Action, s: State, identity: PostgresIdentity)
    requires PostgresInvariant(s) && AcceptedPostgres(s) == Digest(identity) && Enabled(a, s)
    ensures StampedWith(Perform(a, s), identity)
  {
    AcceptedIsTheStamp(s);
    match a
    case Gate(gate) =>
      if !gate.GatePostgres? { OtherGatesLeave(gate, s); LeavingKeepsStamp(s, PerformGate(gate, s), identity); }
    case Credential(credential) =>
      CredentialsLeave(credential, s);
      LeavingKeepsStamp(s, PerformCredential(credential, s), identity);
    case Handoff(handoff) => LeavingKeepsStamp(s, PerformHandoff(handoff, s), identity);
    case Apply(apply) =>
      if apply.ApplyPostgresPVC? || apply.ApplyPostgresDeployment? {
        assert identity == DesiredPostgres(s.work);
        PostgresAppliesStamp(apply, s);
      } else {
        OtherAppliesLeave(apply, s);
        LeavingKeepsStamp(s, PerformApply(apply, s), identity);
      }
    case Report(report) =>
      ReportsLeave(report, s);
      LeavingKeepsStamp(s, PerformReport(report, s), identity);
    case Environment(environment) => DisturbKeepsStamp(environment, s, identity);
  }

  lemma StepKeepsStamp(a: Action, s: State, identity: PostgresIdentity)
    requires PostgresInvariant(s) && AcceptedPostgres(s) == Digest(identity)
    ensures StampedWith(Step(a, s), identity)
  {
    AcceptedIsTheStamp(s);
    if Enabled(a, s) {
      PerformKeepsStamp(a, s, identity);
      LeavingKeepsStamp(Perform(a, s), Observe(Perform(a, s)), identity);
    }
  }

  /** Throughout the run some owned Postgres child carries an accepted identity. */
  ghost predicate Survives(s: State, actions: seq<Action>)
    decreases actions
  {
    AcceptedPostgres(s) != Unset && (actions != [] ==> Survives(Step(actions[0], s), actions[1..]))
  }

  /** Once an identity is accepted, and for as long as one of the children carrying it survives, it
      never changes and no password is generated, whatever happens to the Secret. */
  lemma {:induction false} CreateOnce(s: State, actions: seq<Action>)
    requires PostgresInvariant(s) && Survives(s, actions)
    ensures AcceptedPostgres(Run(s, actions)) == AcceptedPostgres(s)
    ensures Run(s, actions).generated == s.generated
    decreases actions
  {
    if actions != [] {
      var t := Step(actions[0], s);
      StepKeeps(actions[0], s);
      AcceptedIsTheStamp(s);
      StepKeepsStamp(actions[0], s, AcceptedPostgres(s).of);
      AcceptedIsTheStamp(t);
      GeneratesOnlyUnaccepted(actions[0], s);
      CreateOnce(t, actions[1..]);
    }
  }

  // -------------------------------------------------------------------------------------------
  // The read and the patch of the generated Secret are two requests

  predicate Writes(seen: Secret, drift: bool) {
    drift || seen.owner != ThisDBSync || seen.fingerprint != WantedFingerprint(seen)
  }

  /** What the live Secret must look like when the patch reaches the server. */
  predicate PatchIsSound(seen: Secret, drift: bool, current: Secret) {
    Writes(seen, drift) ==>
      if seen.fingerprint != WantedFingerprint(seen) then current.password == seen.password
      else current.fingerprint == Digest(current.password)
  }

  /** The credential that comes out of the patch carries the fingerprint of its own password exactly
      when the live Secret met that condition. */
  lemma PatchIsSoundIff(s: State, drift: bool)
    requires s.phase == SecretSeen && GENERATED_AUTH_SECRET in s.secrets
    requires PatchGeneratedSecretStep(s, drift).phase == Resolved
    ensures var used := PatchGeneratedSecretStep(s, drift).work.credential;
            used.fingerprint == Digest(used.password)
            <==> PatchIsSound(s.work.seen, drift, s.secrets[GENERATED_AUTH_SECRET])
  {
  }

  /** The property behind the fingerprint: of patched credentials that pass the Postgres gate over an
      accepted identity, exactly those of sound patches re-derive it. */
  lemma GatedPatchIsSoundIff(s: State, drift: bool)
    requires s.phase == SecretSeen && GENERATED_AUTH_SECRET in s.secrets && AcceptedPostgres(s) != Unset
    requires ManagedWork(s) && s.work.dbSync.spec.database.authSecretRef.None?
    requires PatchGeneratedSecretStep(s, drift).phase == Resolved
    requires GatePostgresStep(PatchGeneratedSecretStep(s, drift)).phase == PostgresGated
    ensures var u := GatePostgresStep(PatchGeneratedSecretStep(s, drift));
            ManagedWork(u) &&
            (AcceptedPostgres(u) == Digest(Rederived(u))
             <==> PatchIsSound(s.work.seen, drift, s.secrets[GENERATED_AUTH_SECRET]))
  {
    var t := PatchGeneratedSecretStep(s, drift);
    PatchIsSoundIff(s, drift);
    assert DesiredPostgres(t.work).version == t.work.credential.fingerprint;
    assert Rederived(t).version == Digest(t.work.credential.password);
  }

  /** The identity this password gives under the reconcile's spec, derived afresh. */
  function Rederived(s: State): PostgresIdentity
    requires ManagedWork(s)
  {
    PostgresIdentityFor(s.work.dbSync.spec.database, Digest(s.work.credential.password))
  }

  // -------------------------------------------------------------------------------------------
  // Over every run

  /** Whether the run's last credential came out of a sound patch, or of no patch at all. */
  ghost function LastPatchWasSound(s: State, actions: seq<Action>, sound: bool): bool
    decreases actions
  {
    if actions == [] then sound
    else LastPatchWasSound(Step(actions[0], s), actions[1..], SoundAfter(actions[0], s, sound))
  }

  function SoundAfter(a: Action, s: State, sound: bool): bool {
    if !Enabled(a, s) || !a.Credential? then sound
    else if a.credential.PatchGeneratedSecret? && GENERATED_AUTH_SECRET in s.secrets then
      PatchIsSound(s.work.seen, a.credential.drift, s.secrets[GENERATED_AUTH_SECRET])
    else true
  }

  predicate HasCredential(phase: Phase) {
    phase == Resolved || BeyondPostgresGate(phase)
  }

  predicate LeavesCredential(s: State, t: State) {
    HasCredential(t.phase) ==>
      && HasCredential(s.phase) && t.work.credential == s.work.credential && t.work.dbSync.spec == s.work.dbSync.spec
  }

  lemma GatesLeaveCredential(a: GateAction, s: State)
    requires GateEnabled(a, s)
    ensures LeavesCredential(s, PerformGate(a, s))
  {
  }

  lemma AppliesLeaveCredential(a: ApplyAction, s: State)
    requires ApplyEnabled(a, s)
    ensures LeavesCredential(s, PerformApply(a, s))
  {
  }

  lemma ReportsLeaveCredential(a: ReportAction, s: State)
    requires ReportEnabled(a, s)
    ensures LeavesCredential(s, PerformReport(a, s))
  {
  }

  lemma DisturbLeavesCredential(e: EnvironmentAction, s: State)
    ensures LeavesCredential(s, Disturb(e, s))
  {
  }

  lemma OthersLeaveCredential(a: Action, s: State)
    requires Enabled(a, s) && !a.Credential?
    ensures LeavesCredential(s, Perform(a, s))
  {
    match a
    case Gate(gate) => GatesLeaveCredential(gate, s);
    case Handoff(_) =>
    case Apply(apply) => AppliesLeaveCredential(apply, s);
    case Report(report) => ReportsLeaveCredential(report, s);
    case Environment(environment) => DisturbLeavesCredential(environment, s);
  }

  /** Once resolved, a managed credential is usable, and it carries the fingerprint of its own password
      exactly if the last patch was sound. */
  predicate CredentialTracks(s: State, sound: bool) {
    HasCredential(s.phase) && ManagedWork(s) ==>
      && !DataProblem(s.work.credential.password)
      && (CredentialVersion(s.work.dbSync.spec.database, s.work.credential) == Digest(s.work.credential.password) <==> sound)
  }

  lemma PatchTracks(s: State, drift: bool)
    requires s.phase == SecretSeen && ManagedWork(s) && s.work.dbSync.spec.database.authSecretRef.None?
    ensures CredentialTracks(PatchGeneratedSecretStep(s, drift),
                             SoundAfter(Credential(PatchGeneratedSecret(drift)), s, true))
  {
    if GENERATED_AUTH_SECRET in s.secrets && PatchGeneratedSecretStep(s, drift).phase == Resolved {
      PatchIsSoundIff(s, drift);
    }
  }

  /** A Secret is seen only on the generated path. */
  predicate SeenIsGenerated(s: State) {
    s.phase == SecretSeen ==> ManagedWork(s) && s.work.dbSync.spec.database.authSecretRef.None?
  }

  lemma CredentialsTrack(a: CredentialAction, s: State, sound: bool)
    requires CredentialEnabled(a, s) && SeenIsGenerated(s)
    ensures CredentialTracks(PerformCredential(a, s), SoundAfter(Credential(a), s, sound))
    ensures SeenIsGenerated(PerformCredential(a, s))
  {
    if a.PatchGeneratedSecret? {
      PatchTracks(s, a.drift);
    }
  }

  lemma OthersKeepSeen(a: Action, s: State)
    requires Enabled(a, s) && !a.Credential? && SeenIsGenerated(s)
    ensures SeenIsGenerated(Perform(a, s))
  {
    match a
    case Gate(_) =>
    case Handoff(_) =>
    case Apply(_) =>
    case Report(_) =>
    case Environment(_) =>
  }

  lemma StepTracks(a: Action, s: State, sound: bool)
    requires CredentialTracks(s, sound) && SeenIsGenerated(s)
    ensures CredentialTracks(Step(a, s), SoundAfter(a, s, sound)) && SeenIsGenerated(Step(a, s))
  {
    if Enabled(a, s) {
      if a.Credential? { CredentialsTrack(a.credential, s, sound); }
      else { OthersLeaveCredential(a, s); OthersKeepSeen(a, s); }
    }
  }

  lemma {:induction false} RunTracks(s: State, actions: seq<Action>, sound: bool)
    requires PostgresInvariant(s) && CredentialTracks(s, sound) && SeenIsGenerated(s)
    ensures PostgresInvariant(Run(s, actions)) && CredentialTracks(Run(s, actions), LastPatchWasSound(s, actions, sound))
    decreases actions
  {
    if actions != [] {
      StepKeeps(actions[0], s);
      StepTracks(actions[0], s, sound);
      RunTracks(Step(actions[0], s), actions[1..], SoundAfter(actions[0], s, sound));
    }
  }

  /** The reconcile's own stamp and its password belong together exactly if its patch was sound. */
  lemma StampMatchesPasswordIff(s: State, sound: bool)
    requires CredentialTracks(s, sound) && HasCredential(s.phase) && ManagedWork(s)
    ensures DesiredPostgres(s.work) == Rederived(s) <==> sound
  {
    assert DesiredPostgres(s.work).version == CredentialVersion(s.work.dbSync.spec.database, s.work.credential);
    assert Rederived(s).version == Digest(s.work.credential.password);
  }

  lemma AppliedStamp(s: State, a: ApplyAction)
    requires PostgresInvariant(s) && ApplyEnabled(a, s) && ManagedWork(s)
    requires AcceptedPostgres(Step(Apply(a), s)) != Unset
    ensures AcceptedPostgres(Step(Apply(a), s)) == Digest(DesiredPostgres(s.work))
  {
    assert BeyondPostgresGate(s.phase);
    var t := PerformApply(a, s);
    if a.ApplyPostgresPVC? || a.ApplyPostgresDeployment? {
      PostgresAppliesStamp(a, s);
    } else {
      OtherAppliesLeave(a, s);
      LeavingKeepsStamp(s, t, DesiredPostgres(s.work));
    }
    LeavingKeepsStamp(t, Observe(t), DesiredPostgres(s.work));
    StampIsAccepted(Observe(t), DesiredPostgres(s.work));
  }

  lemma StampIsAccepted(s: State, identity: PostgresIdentity)
    requires StampedWith(s, identity) && AcceptedPostgres(s) != Unset
    ensures AcceptedPostgres(s) == Digest(identity)
  {
  }

  /** Every Postgres, config and pgpass apply of every run, whatever the user did to the Secret: the
      password is usable, and its re-derived identity is the one accepted afterwards exactly if the last
      patch of the Secret was sound. */
  lemma AppliesUseTheAcceptedPasswordIff(start: State, actions: seq<Action>, a: ApplyAction)
    requires Initial(start)
    requires var s := Run(start, actions); ApplyEnabled(a, s) && ManagedWork(s)
    ensures var s, t := Run(start, actions), Step(Apply(a), Run(start, actions));
            && !DataProblem(s.work.credential.password)
            && (AcceptedPostgres(t) != Unset ==>
                  (AcceptedPostgres(t) == Digest(Rederived(s)) <==> LastPatchWasSound(start, actions, true)))
            && (a.ApplyPGPass? && t.phase == PGPassApplied ==>
                  t.pgPass.Some? && t.pgPass.value.password == s.work.credential.password)
  {
    hide Run, LastPatchWasSound;
    InitialHolds(start);
    RunTracks(start, actions, true);
    var s := Run(start, actions);
    assert HasCredential(s.phase);
    StampMatchesPasswordIff(s, LastPatchWasSound(start, actions, true));
    if AcceptedPostgres(Step(Apply(a), s)) != Unset {
      AppliedStamp(s, a);
    }
    if a.ApplyPGPass? {
      PGPassHoldsPassword(s);
    }
  }

  lemma PGPassHoldsPassword(s: State)
    requires ApplyEnabled(ApplyPGPass, s)
    ensures var t := Step(Apply(ApplyPGPass), s);
            t.phase == PGPassApplied ==> t.pgPass.Some? && t.pgPass.value.password == s.work.credential.password
  {
  }

  /** Two applies of one run, with the accepted identity surviving from one to the other, the first after a
      sound patch: they use the same password exactly if the second one's patch was sound too, and then the
      same image, database and user. */
  lemma PasswordNeverChangesIff(start: State, before: seq<Action>, between: seq<Action>, a: ApplyAction, b: ApplyAction)
    requires Initial(start) && LastPatchWasSound(start, before, true)
    requires Survives(Run(start, before), between)
    requires var s := Run(start, before); ApplyEnabled(a, s) && ManagedWork(s)
    requires var t := Run(start, before + between); ApplyEnabled(b, t) && ManagedWork(t)
    ensures var s, t := Run(start, before), Run(start, before + between);
            && (t.work.credential.password == s.work.credential.password
                <==> LastPatchWasSound(start, before + between, true))
            && (LastPatchWasSound(start, before + between, true) ==> Rederived(t) == Rederived(s))
  {
    hide Run, LastPatchWasSound, Survives;
    InitialHolds(start);
    RunTracks(start, before, true);
    RunTracks(start, before + between, true);
    RunConcat(start, before, between);
    var s, t := Run(start, before), Run(start, before + between);
    CreateOnce(s, between);
    SurvivalAccepts(s, between);
    SameStampSamePassword(s, t, LastPatchWasSound(start, before + between, true));
  }

  lemma SurvivalAccepts(s: State, actions: seq<Action>)
    requires Survives(s, actions)
    ensures AcceptedPostgres(s) != Unset
  {
  }

  lemma SameStampSamePassword(s: State, t: State, sound: bool)
    requires PostgresInvariant(s) && BeyondPostgresGate(s.phase) && ManagedWork(s) && CredentialTracks(s, true)
    requires PostgresInvariant(t) && BeyondPostgresGate(t.phase) && ManagedWork(t) && CredentialTracks(t, sound)
    requires AcceptedPostgres(s) == AcceptedPostgres(t) != Unset
    ensures t.work.credential.password == s.work.credential.password <==> sound
    ensures sound ==> Rederived(t) == Rederived(s)
  {
    StampIsAccepted(s, DesiredPostgres(s.work));
    StampIsAccepted(t, DesiredPostgres(t.work));
    StampMatchesPasswordIff(s, true);
    StampMatchesPasswordIff(t, sound);
    assert DesiredPostgres(t.work) == Rederived(s);
    assert Rederived(s).version == Digest(s.work.credential.password);
    assert Rederived(t) == PostgresIdentityFor(t.work.dbSync.spec.database, Digest(t.work.credential.password));
    assert DesiredPostgres(t.work) ==
           PostgresIdentityFor(t.work.dbSync.spec.database,
                               CredentialVersion(t.work.dbSync.spec.database, t.work.credential));
  }

  /** A Secret restored without an owner is taken back exactly when it holds the original password. */
  lemma RestoreNeedsTheOriginalPassword(s: State, current: Secret, original: string)
    requires s.work.dbSync.spec.database.Managed? && !DataProblem(original)
    requires AcceptedPostgres(s) ==
               Digest(PostgresIdentityFor(s.work.dbSync.spec.database.(authSecretRef := None), Digest(original)))
    ensures ReadRestoredSecretStep(s, current).phase == SecretSeen <==> current.password == original
  {
    assert PostgresIdentityFor(s.work.dbSync.spec.database.(authSecretRef := None), Digest(current.password)).version
           == Digest(current.password);
  }

  /** The reconcile's next calls on the generated path, with nothing in between. */
  function Restoring(password: string, drift: bool): seq<Action> {
    [Credential(ReadGeneratedSecret(password)), Credential(PatchGeneratedSecret(drift)), Gate(GatePostgres)]
  }

  predicate SameDatabase(a: DatabaseMode, b: DatabaseMode)
    requires a.Managed? && b.Managed?
  {
    a.image == b.image && a.name == b.name && a.user == b.user
  }

  /** The generated Secret was lost and put back without an owner: the next reconcile takes it back and passes
      the Postgres gate exactly if it holds the password of an apply made since when the identity survived, and
      the spec still asks for the same image, database and user. Otherwise the Secret is left as it is. */
  lemma RestoredSecretIsAdoptedIff(start: State, before: seq<Action>, between: seq<Action>, a: ApplyAction,
                                   password: string, drift: bool)
    requires Initial(start) && LastPatchWasSound(start, before, true) && !DataProblem(password)
    requires Survives(Run(start, before), between)
    requires var s := Run(start, before);
             ApplyEnabled(a, s) && ManagedWork(s) && s.work.dbSync.spec.database.authSecretRef.None?
    requires var t := Run(start, before + between); AtRestoredSecret(t)
    ensures var s, t := Run(start, before), Run(start, before + between);
            var u := Run(t, Restoring(password, drift));
            && (u.phase == PostgresGated <==>
                  && t.secrets[GENERATED_AUTH_SECRET].password == s.work.credential.password
                  && SameDatabase(t.work.dbSync.spec.database, s.work.dbSync.spec.database))
            && (u.phase == PostgresGated ==>
                  u.secrets == t.secrets[GENERATED_AUTH_SECRET :=
                    Secret(ThisDBSync, s.work.credential.password, Digest(s.work.credential.password),
                           t.secrets[GENERATED_AUTH_SECRET].deleting)])
            && (u.phase != PostgresGated ==> u.phase == Blocked && u.secrets == t.secrets)
  {
    hide Run, LastPatchWasSound, Survives, Step;
    var s, t := Run(start, before), Run(start, before + between);
    InitialHolds(start);
    RunTracks(start, before, true);
    RunConcat(start, before, between);
    CreateOnce(s, between);
    SurvivalAccepts(s, between);
    StampIsAccepted(s, DesiredPostgres(s.work));
    StampMatchesPasswordIff(s, true);
    AdoptionOutcome(s, t, password, drift);
  }

  /** At the resolution of the generated Secret, which is there without an owner. */
  predicate AtRestoredSecret(t: State) {
    && t.phase == Placed && ManagedWork(t) && t.work.dbSync.spec.database.authSecretRef.None?
    && GENERATED_AUTH_SECRET in t.secrets && t.secrets[GENERATED_AUTH_SECRET].owner == NoOwner
  }

  lemma AdoptionOutcome(s: State, t: State, password: string, drift: bool)
    requires ManagedWork(s) && s.work.dbSync.spec.database.authSecretRef.None? && !DataProblem(s.work.credential.password)
    requires AcceptedPostgres(t) == Digest(Rederived(s)) && AtRestoredSecret(t) && !DataProblem(password)
    ensures var u := Run(t, Restoring(password, drift)); var original := s.work.credential.password;
            var current := t.secrets[GENERATED_AUTH_SECRET];
            && (u.phase == PostgresGated <==>
                  current.password == original && SameDatabase(t.work.dbSync.spec.database, s.work.dbSync.spec.database))
            && (u.phase == PostgresGated ==>
                  u.secrets ==
                    t.secrets[GENERATED_AUTH_SECRET := Secret(ThisDBSync, original, Digest(original), current.deleting)])
            && (u.phase != PostgresGated ==> u.phase == Blocked && u.secrets == t.secrets)
  {
    hide Run;
    var calls := Restoring(password, drift);
    ThreeSteps(t, calls[0], calls[1], calls[2]);
    ReadingRestored(s, t, password);
    var seen := Step(calls[0], t);
    if seen.phase == SecretSeen {
      TakingBack(t, seen, s.work.credential.password, drift);
    }
  }

  lemma ReadingRestored(s: State, t: State, password: string)
    requires ManagedWork(s) && s.work.dbSync.spec.database.authSecretRef.None? && !DataProblem(s.work.credential.password)
    requires AcceptedPostgres(t) == Digest(Rederived(s)) && AtRestoredSecret(t) && !DataProblem(password)
    ensures var seen := Step(Credential(ReadGeneratedSecret(password)), t);
            var current := t.secrets[GENERATED_AUTH_SECRET];
            && seen == Observe(t.(phase := seen.phase, work := t.work.(seen := seen.work.seen)))
            && (if current.password == s.work.credential.password
                   && SameDatabase(t.work.dbSync.spec.database, s.work.dbSync.spec.database)
                then seen.phase == SecretSeen && seen.work.seen == current else seen.phase == Blocked)
  {
    var mode, original := t.work.dbSync.spec.database, s.work.credential.password;
    var current := t.secrets[GENERATED_AUTH_SECRET];
    assert mode.(authSecretRef := None) == mode;
    if SameDatabase(mode, s.work.dbSync.spec.database) {
      assert PostgresIdentityFor(mode, Digest(original)) == Rederived(s);
      RestoreNeedsTheOriginalPassword(t, current, original);
    } else {
      assert PostgresIdentityFor(mode, Digest(current.password)) != Rederived(s);
    }
  }

  lemma TakingBack(t: State, seen: State, original: string, drift: bool)
    requires AtRestoredSecret(t) && t.secrets[GENERATED_AUTH_SECRET].password == original && !DataProblem(original)
    requires seen == Observe(t.(phase := SecretSeen, work := t.work.(seen := t.secrets[GENERATED_AUTH_SECRET])))
    requires AcceptedPostgres(t) == Digest(PostgresIdentityFor(t.work.dbSync.spec.database, Digest(original)))
    ensures var u := Step(Gate(GatePostgres), Step(Credential(PatchGeneratedSecret(drift)), seen));
            var taken := Secret(ThisDBSync, original, Digest(original), t.secrets[GENERATED_AUTH_SECRET].deleting);
            u.phase == PostgresGated && u.secrets == t.secrets[GENERATED_AUTH_SECRET := taken]
  {
    hide Observe, DataProblem;
    ObserveKeepsTheReconcile(t.(phase := SecretSeen, work := t.work.(seen := t.secrets[GENERATED_AUTH_SECRET])));
    PatchingRestored(seen, original, drift);
    var patched := Step(Credential(PatchGeneratedSecret(drift)), seen);
    var taken := Secret(ThisDBSync, original, Digest(original), t.secrets[GENERATED_AUTH_SECRET].deleting);
    ObserveKeepsTheReconcile(seen.(phase := Resolved, work := seen.work.(credential := taken),
                                   secrets := seen.secrets[GENERATED_AUTH_SECRET := taken]));
    assert patched.work.dbSync == t.work.dbSync;
    assert AcceptedPostgres(patched) == AcceptedPostgres(t);
    ObserveKeepsTheReconcile(patched.(phase := PostgresGated));
  }

  lemma ObserveKeepsTheReconcile(s: State)
    ensures Observe(s) == s.(everReady := Observe(s).everReady)
  {
  }

  lemma PatchingRestored(seen: State, original: string, drift: bool)
    requires seen.phase == SecretSeen && GENERATED_AUTH_SECRET in seen.secrets && !DataProblem(original)
    requires seen.work.seen == seen.secrets[GENERATED_AUTH_SECRET]
    requires seen.work.seen.owner == NoOwner && seen.work.seen.password == original
    ensures var taken := Secret(ThisDBSync, original, Digest(original), seen.work.seen.deleting);
            Step(Credential(PatchGeneratedSecret(drift)), seen) ==
              Observe(seen.(phase := Resolved, work := seen.work.(credential := taken),
                            secrets := seen.secrets[GENERATED_AUTH_SECRET := taken]))
  {
    hide Observe;
    assert original != "";
  }
}
