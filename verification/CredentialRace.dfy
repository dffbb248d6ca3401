/** The window between reading and patching the generated auth Secret. A user who drops the
    fingerprint annotation before the read and edits the password before the patch gets a Secret with
    the new password under the old fingerprint, and the Postgres gate lets it through. */
module CredentialRace {
  import opened Fingerprints
  import opened Protocol
  import opened ManagedPostgres

  /** The patched Secret carries the fingerprint of `original`, which the reconcile read, over
      whatever password the live Secret has by then; the gate compares fingerprints only. */
  lemma EditedPasswordPassesTheGate(s: State, original: string, edited: string, fingerprint: Fingerprint<string>)
    requires s.phase == SecretSeen && ManagedWork(s) && s.work.dbSync.spec.database.authSecretRef.None?
    requires !DataProblem(original) && !DataProblem(edited)
    requires s.work.seen == Secret(ThisDBSync, original, Unset, false)
    requires GENERATED_AUTH_SECRET in s.secrets
    requires s.secrets[GENERATED_AUTH_SECRET] == Secret(ThisDBSync, edited, fingerprint, false)
    requires AcceptedPostgres(s) == Digest(PostgresIdentityFor(s.work.dbSync.spec.database, Digest(original)))
    ensures var t := GatePostgresStep(PatchGeneratedSecretStep(s, false));
            && t.phase == PostgresGated
            && t.work.credential.password == edited
            && (AcceptedPostgres(t) == Digest(Rederived(t)) <==> edited == original)
  {
    var patched := PatchGeneratedSecretStep(s, false);
    assert patched.work.credential == Secret(ThisDBSync, edited, Digest(original), false);
    assert AcceptedPostgres(patched) == AcceptedPostgres(s);
    var mode := s.work.dbSync.spec.database;
    assert PostgresIdentityFor(mode, Digest(original)).version == Digest(original);
    assert PostgresIdentityFor(mode, Digest(edited)).version == Digest(edited);
  }

  /** An object on a generated password, in a cluster where nothing is in its way. */
  predicate FreshManaged(s: State) {
    && Initial(s) && s.live.spec.placement.None? && s.live.spec.database.Managed?
    && s.live.spec.database.authSecretRef.None? && GENERATED_AUTH_SECRET !in s.secrets
    && s.statePVC.None? && s.postgresPVC.None? && s.postgresDeployment.None? && s.configMap.None? && s.pgPass.None?
    && s.templates == {} && s.sidecarPods == {}
  }

  function Bootstrap(original: string): seq<Action> {
    [Gate(Fetch), Gate(CheckPlacement(true)), Credential(ReadGeneratedSecret(original)), Gate(GatePostgres),
     Gate(GateIdentity), Gate(GatePlacement), Handoff(CheckSidecarGone), Apply(ApplyPostgresPVC), Report(Fail)]
  }

  /** The password was generated, the Postgres PVC stamped; then the reconcile stopped. */
  function Bootstrapped(s: State, original: string): State
    requires FreshManaged(s)
  {
    var secret := Secret(ThisDBSync, original, Digest(original), false);
    var identity := PostgresIdentityFor(s.live.spec.database, Digest(original));
    s.(work := s.work.(dbSync := s.live, credential := secret), generated := s.generated + 1,
       secrets := s.secrets[GENERATED_AUTH_SECRET := secret], postgresPVC := Some(PostgresPVC(ThisDBSync, Digest(identity))))
  }

  lemma Bootstrapping(s: State, original: string)
    requires FreshManaged(s) && !DataProblem(original)
    ensures Run(s, Bootstrap(original)) == Bootstrapped(s, original)
  {
    hide Run, DataProblem, Enabled, Perform;
    var run := Bootstrap(original);
    var done := Bootstrapped(s, original);
    var resolved := done.(phase := Resolved, postgresPVC := None);
    Generating(s, run, original);
    PassTheDatabaseGates(s, run, 3, resolved);
    PassThePlacementGate(s, run, 5, resolved);
    Stamping(s, run, 7, resolved, done);
    assert run[..9] == run;
  }

  lemma Generating(s: State, run: seq<Action>, original: string)
    requires FreshManaged(s) && !DataProblem(original) && |run| > 3
    requires run[0] == Gate(Fetch) && run[1] == Gate(CheckPlacement(true))
    requires run[2] == Credential(ReadGeneratedSecret(original))
    ensures Run(s, run[..3]) == Bootstrapped(s, original).(phase := Resolved, postgresPVC := None)
  {
    hide Run;
    var fetched := s.(phase := Fetched, work := s.work.(dbSync := s.live));
    assert [] + [run[0]] == run[..1];
    NoActions(s);
    Then(s, [], s, run[0], fetched);
    assert run[..1] + [run[1]] == run[..2];
    Then(s, run[..1], fetched, run[1], Goto(fetched, Placed));
    assert run[..2] + [run[2]] == run[..3];
    Then(s, run[..2], Goto(fetched, Placed), run[2], Bootstrapped(s, original).(phase := Resolved, postgresPVC := None));
  }

  lemma PassTheDatabaseGates(s: State, run: seq<Action>, k: nat, t: State)
    requires |run| > k + 1 && run[k] == Gate(GatePostgres) && run[k + 1] == Gate(GateIdentity)
    requires Run(s, run[..k]) == t && t.phase == Resolved && !t.live.status.material.ready && ManagedWork(t)
    requires t.statePVC.None? && AcceptedPostgres(t) in {Unset, Digest(DesiredPostgres(t.work))}
    ensures Run(s, run[..k + 2]) == Goto(t, IdentityGated)
  {
    hide Run, AcceptedPostgres, DesiredPostgres;
    assert run[..k] + [run[k]] == run[..k + 1];
    Then(s, run[..k], t, run[k], Goto(t, PostgresGated));
    assert run[..k + 1] + [run[k + 1]] == run[..k + 2];
    Then(s, run[..k + 1], Goto(t, PostgresGated), run[k + 1], Goto(t, IdentityGated));
  }

  lemma PassThePlacementGate(s: State, run: seq<Action>, k: nat, t: State)
    requires |run| > k + 1 && run[k] == Gate(GatePlacement) && run[k + 1] == Handoff(CheckSidecarGone)
    requires Run(s, run[..k]) == Goto(t, IdentityGated) && !t.live.status.material.ready && Dedicated(t)
    requires t.statePVC.None? && t.templates == {} && t.sidecarPods == {}
    requires t.work.dbSync.status.acceptedMode.None? && t.work.dbSync.status.acceptedIdentity == Unset
    ensures Run(s, run[..k + 2]) == Goto(t, HandedOff)
  {
    hide Run;
    assert run[..k] + [run[k]] == run[..k + 1];
    Then(s, run[..k], Goto(t, IdentityGated), run[k], Goto(t, PlacementGated));
    assert run[..k + 1] + [run[k + 1]] == run[..k + 2];
    Then(s, run[..k + 1], Goto(t, PlacementGated), run[k + 1], Goto(t, HandedOff));
  }

  lemma Stamping(s: State, run: seq<Action>, k: nat, t: State, done: State)
    requires |run| > k + 1 && run[k] == Apply(ApplyPostgresPVC) && run[k + 1] == Report(Fail)
    requires Run(s, run[..k]) == Goto(t, HandedOff) && !t.live.status.material.ready && ManagedWork(t)
    requires t.postgresPVC.None?
    requires done == t.(phase := Idle, postgresPVC := Some(PostgresPVC(ThisDBSync, Digest(DesiredPostgres(t.work)))))
    ensures Run(s, run[..k + 2]) == done
  {
    hide Run, DesiredPostgres;
    assert run[..k] + [run[k]] == run[..k + 1];
    Then(s, run[..k], Goto(t, HandedOff), run[k], Goto(done, PostgresPVCApplied));
    assert run[..k + 1] + [run[k + 1]] == run[..k + 2];
    Then(s, run[..k + 1], Goto(done, PostgresPVCApplied), run[k + 1], done);
  }

  function Race(original: string, edited: string): seq<Action> {
    [Environment(PutSecret(GENERATED_AUTH_SECRET, Secret(ThisDBSync, original, Unset, false))),
     Gate(Fetch), Gate(CheckPlacement(true)), Credential(ReadGeneratedSecret(original)),
     Environment(PutSecret(GENERATED_AUTH_SECRET, Secret(ThisDBSync, edited, Unset, false)))]
  }

  lemma Racing(s: State, original: string, edited: string)
    requires s.phase == Idle && !s.live.status.material.ready && s.live.spec.placement.None?
    requires s.live.spec.database.Managed? && s.live.spec.database.authSecretRef.None? && !DataProblem(original)
    ensures var secret := Secret(ThisDBSync, original, Unset, false);
            Run(s, Race(original, edited)) ==
              s.(phase := SecretSeen, work := s.work.(dbSync := s.live, seen := secret),
                 secrets := s.secrets[GENERATED_AUTH_SECRET := Secret(ThisDBSync, edited, Unset, false)])
  {
    hide Run;
    var run := Race(original, edited);
    var put := s.(secrets := s.secrets[GENERATED_AUTH_SECRET := Secret(ThisDBSync, original, Unset, false)]);
    assert [] + [run[0]] == run[..1];
    NoActions(s);
    Then(s, [], s, run[0], put);
    Reading(s, run, put, original);
    var seen := put.(phase := SecretSeen,
                     work := s.work.(dbSync := s.live, seen := Secret(ThisDBSync, original, Unset, false)));
    assert run[..4] + [run[4]] == run;
    Then(s, run[..4], seen, run[4],
         seen.(secrets := seen.secrets[GENERATED_AUTH_SECRET := Secret(ThisDBSync, edited, Unset, false)]));
  }

  lemma Reading(s: State, run: seq<Action>, put: State, original: string)
    requires |run| > 3 && run[1] == Gate(Fetch) && run[2] == Gate(CheckPlacement(true))
    requires run[3] == Credential(ReadGeneratedSecret(original)) && !DataProblem(original)
    requires Run(s, run[..1]) == put && put.phase == Idle && !put.live.status.material.ready
    requires put.live.spec.placement.None? && put.live.spec.database.Managed?
    requires put.live.spec.database.authSecretRef.None? && GENERATED_AUTH_SECRET in put.secrets
    requires put.secrets[GENERATED_AUTH_SECRET] == Secret(ThisDBSync, original, Unset, false)
    ensures Run(s, run[..4]) ==
              put.(phase := SecretSeen, work := put.work.(dbSync := put.live,
                                                          seen := Secret(ThisDBSync, original, Unset, false)))
  {
    hide Run, DataProblem;
    var fetched := put.(phase := Fetched, work := put.work.(dbSync := put.live));
    assert run[..1] + [run[1]] == run[..2];
    Then(s, run[..1], put, run[1], fetched);
    assert run[..2] + [run[2]] == run[..3];
    Then(s, run[..2], fetched, run[2], Goto(fetched, Placed));
    assert run[..3] + [run[3]] == run[..4];
    Then(s, run[..3], Goto(fetched, Placed), run[3],
         fetched.(phase := SecretSeen, work := fetched.work.(seen := Secret(ThisDBSync, original, Unset, false))));
  }

  const GATES: seq<Action> :=
    [Credential(PatchGeneratedSecret(false)), Gate(GatePostgres), Gate(GateIdentity), Gate(GatePlacement),
     Handoff(CheckSidecarGone)]

  /** The patch and the gates, from a state as the race leaves it. */
  lemma GoingOn(s: State, original: string, edited: string)
    requires s.phase == SecretSeen && ManagedWork(s) && s.work.dbSync.spec.database.authSecretRef.None?
    requires !DataProblem(original) && !DataProblem(edited) && Dedicated(s) && !s.live.status.material.ready
    requires s.work.seen == Secret(ThisDBSync, original, Unset, false)
    requires GENERATED_AUTH_SECRET in s.secrets
    requires s.secrets[GENERATED_AUTH_SECRET] == Secret(ThisDBSync, edited, Unset, false)
    requires AcceptedPostgres(s) == Digest(PostgresIdentityFor(s.work.dbSync.spec.database, Digest(original)))
    requires s.statePVC.None? && s.templates == {} && s.sidecarPods == {}
    requires s.work.dbSync.status.acceptedMode.None? && s.work.dbSync.status.acceptedIdentity == Unset
    ensures var secret := Secret(ThisDBSync, edited, Digest(original), false);
            Run(s, GATES) == s.(phase := HandedOff, work := s.work.(credential := secret),
                                secrets := s.secrets[GENERATED_AUTH_SECRET := secret])
  {
    hide Run, DataProblem, Enabled, Perform;
    var secret := Secret(ThisDBSync, edited, Digest(original), false);
    var t := s.(phase := Resolved, work := s.work.(credential := secret),
                secrets := s.secrets[GENERATED_AUTH_SECRET := secret]);
    PatchingEdited(s, original, edited);
    assert GATES[..1] == [Credential(PatchGeneratedSecret(false))];
    assert AcceptedPostgres(t) == Digest(DesiredPostgres(t.work));
    PassTheDatabaseGates(s, GATES, 1, t);
    PassThePlacementGate(s, GATES, 3, t);
    assert GATES[..5] == GATES;
  }

  lemma PatchingEdited(s: State, original: string, edited: string)
    requires s.phase == SecretSeen && !DataProblem(original) && !DataProblem(edited) && !s.live.status.material.ready
    requires s.work.seen == Secret(ThisDBSync, original, Unset, false)
    requires GENERATED_AUTH_SECRET in s.secrets
    requires s.secrets[GENERATED_AUTH_SECRET] == Secret(ThisDBSync, edited, Unset, false)
    ensures var secret := Secret(ThisDBSync, edited, Digest(original), false);
            Run(s, [Credential(PatchGeneratedSecret(false))]) ==
              s.(phase := Resolved, work := s.work.(credential := secret),
                 secrets := s.secrets[GENERATED_AUTH_SECRET := secret])
  {
    hide Run;
    var secret := Secret(ThisDBSync, edited, Digest(original), false);
    var t := s.(phase := Resolved, work := s.work.(credential := secret),
                secrets := s.secrets[GENERATED_AUTH_SECRET := secret]);
    assert original != "";
    assert PatchGeneratedSecretStep(s, false) == t;
    NoActions(s);
    Then(s, [], s, Credential(PatchGeneratedSecret(false)), t);
    assert [] + [Credential(PatchGeneratedSecret(false))] == [Credential(PatchGeneratedSecret(false))];
  }

  const APPLIES: seq<Action> :=
    [Apply(ApplyPostgresPVC), Apply(ApplyPostgresDeployment), Apply(CheckPostgresReady(true)), Apply(ApplyConfigMap),
     Apply(ApplyPGPass)]

  /** The applies, where no foreign child is in the way. */
  function Applied(s: State): State
    requires ManagedWork(s)
  {
    var spec := s.work.dbSync.spec;
    var stamp := Digest(DesiredPostgres(s.work));
    s.(phase := PGPassApplied, postgresPVC := Some(PostgresPVC(ThisDBSync, stamp)),
       postgresDeployment := Some(PostgresDeployment(ThisDBSync, Unset, stamp)),
       configMap := Some(ConfigMap(ThisDBSync, DesiredIdentity(spec), EffectiveMode(spec))),
       pgPass := Some(PGPass(ThisDBSync, DesiredIdentity(spec), EffectiveMode(spec), s.work.credential.password)))
  }

  lemma Applying(s: State)
    requires s.phase == HandedOff && ManagedWork(s) && !s.live.status.material.ready
    requires s.postgresPVC.Some? && s.postgresPVC.value.owner == ThisDBSync
    requires s.postgresDeployment.None? && s.configMap.None? && s.pgPass.None?
    ensures Run(s, APPLIES) == Applied(s)
  {
    hide Run, DesiredPostgres, DesiredIdentity;
    var done := Applied(s);
    var run := APPLIES;
    var first := s.(phase := PostgresPVCApplied, postgresPVC := done.postgresPVC);
    var second := first.(phase := PostgresApplied, postgresDeployment := done.postgresDeployment);
    var third := second.(phase := ConfigMapApplied, configMap := done.configMap);
    NoActions(s);
    assert [] + [run[0]] == run[..1];
    Then(s, [], s, run[0], first);
    assert run[..1] + [run[1]] == run[..2];
    Then(s, run[..1], first, run[1], second);
    assert run[..2] + [run[2]] == run[..3];
    Then(s, run[..2], second, run[2], Goto(second, ReadyToApply));
    assert run[..3] + [run[3]] == run[..4];
    Then(s, run[..3], Goto(second, ReadyToApply), run[3], third);
    assert run[..4] + [run[4]] == run;
    Then(s, run[..4], third, run[4], done);
  }

  /** The race as a run from an empty cluster: two edits of the Secret, and Postgres children stamped for the
      original password stand beside a password file with the edited one. */
  lemma RaceBreaksCreateOnce(s: State, original: string, edited: string)
    requires FreshManaged(s) && !DataProblem(original) && !DataProblem(edited) && edited != original
    ensures var t := Run(s, Bootstrap(original) + Race(original, edited) + GATES + APPLIES);
            && t.phase == PGPassApplied && ManagedWork(t)
            && t.pgPass.Some? && t.pgPass.value.password == edited
            && AcceptedPostgres(t) == Digest(PostgresIdentityFor(t.work.dbSync.spec.database, Digest(original)))
            && AcceptedPostgres(t) != Digest(Rederived(t))
  {
    hide Run;
    var bootstrapped := Bootstrapped(s, original);
    Bootstrapping(s, original);
    RunConcat(s, Bootstrap(original), Race(original, edited));
    Racing(bootstrapped, original, edited);
    var raced := Run(bootstrapped, Race(original, edited));
    RunConcat(s, Bootstrap(original) + Race(original, edited), GATES);
    GoingOn(raced, original, edited);
    var gated := Run(raced, GATES);
    RunConcat(s, Bootstrap(original) + Race(original, edited) + GATES, APPLIES);
    Applying(gated);
    EditedPasswordIsApplied(gated, original, edited);
  }

  lemma EditedPasswordIsApplied(s: State, original: string, edited: string)
    requires ManagedWork(s) && s.work.dbSync.spec.database.authSecretRef.None? && edited != original
    requires s.work.credential == Secret(ThisDBSync, edited, Digest(original), false)
    ensures var t := Applied(s);
            && AcceptedPostgres(t) == Digest(PostgresIdentityFor(t.work.dbSync.spec.database, Digest(original)))
            && AcceptedPostgres(t) != Digest(Rederived(t))
  {
    var mode := s.work.dbSync.spec.database;
    assert PostgresIdentityFor(mode, Digest(original)).version == Digest(original);
    assert PostgresIdentityFor(mode, Digest(edited)).version == Digest(edited);
  }
}
