/** The controller writes only children it owns or creates. */
module Ownership {
  import opened Fingerprints
  import opened Protocol

  /** Children of other owners are the same in `t` as in `s`. */
  predicate LeavesForeignChildren(s: State, t: State) {
    && (s.statePVC.Some? && s.statePVC.value.owner != ThisDBSync ==> t.statePVC == s.statePVC)
    && (s.configMap.Some? && s.configMap.value.owner != ThisDBSync ==> t.configMap == s.configMap)
    && (s.pgPass.Some? && s.pgPass.value.owner != ThisDBSync ==> t.pgPass == s.pgPass)
    && (s.deployment.Some? && s.deployment.value.owner != ThisDBSync ==> t.deployment == s.deployment)
    && (s.postgresPVC.Some? && s.postgresPVC.value.owner != ThisDBSync ==> t.postgresPVC == s.postgresPVC)
    && (s.postgresDeployment.Some? && s.postgresDeployment.value.owner != ThisDBSync ==>
          t.postgresDeployment == s.postgresDeployment)
  }

  /** A foreign child in the way of an apply is reported, not taken over. */
  predicate InTheWay(a: ApplyAction, s: State) {
    match a
    case ApplyPostgresPVC => s.postgresPVC.Some? && s.postgresPVC.value.owner != ThisDBSync
    case ApplyPostgresDeployment => s.postgresDeployment.Some? && s.postgresDeployment.value.owner != ThisDBSync
    case ApplyConfigMap => s.configMap.Some? && s.configMap.value.owner != ThisDBSync
    case ApplyPGPass => s.pgPass.Some? && s.pgPass.value.owner != ThisDBSync
    case ApplyStatePVC => s.statePVC.Some? && s.statePVC.value.owner != ThisDBSync
    case ApplyDeployment => s.deployment.Some? && s.deployment.value.owner != ThisDBSync
    case CheckPostgresReady(_) => false
  }

  lemma CredentialsLeaveChildren(a: CredentialAction, s: State)
    requires CredentialEnabled(a, s)
    ensures LeavesForeignChildren(s, PerformCredential(a, s))
  {
  }

  lemma AppliesLeaveForeignChildren(a: ApplyAction, s: State)
    requires ApplyEnabled(a, s)
    ensures LeavesForeignChildren(s, PerformApply(a, s))
    ensures InTheWay(a, s) ==> PerformApply(a, s) == Goto(s, Blocked)
  {
  }

  lemma GatesLeaveChildren(a: GateAction, s: State)
    requires GateEnabled(a, s)
    ensures LeavesForeignChildren(s, PerformGate(a, s))
  {
  }

  lemma HandoffsLeaveForeignChildren(a: HandoffAction, s: State)
    requires HandoffEnabled(a, s)
    ensures LeavesForeignChildren(s, PerformHandoff(a, s))
  {
  }

  lemma ReportsLeaveForeignChildren(a: ReportAction, s: State)
    requires ReportEnabled(a, s)
    ensures LeavesForeignChildren(s, PerformReport(a, s))
  {
  }

  lemma ObserveLeavesChildren(s: State, t: State)
    requires LeavesForeignChildren(s, t)
    ensures LeavesForeignChildren(s, Observe(t))
  {
  }

  /** No step of the controller changes a PVC, Deployment, ConfigMap or pgpass Secret of another owner, and an
      apply that meets one does nothing but go onto the blocked path. */
  lemma ForeignChildrenAreLeftAlone(a: Action, s: State)
    requires !a.Environment?
    ensures LeavesForeignChildren(s, Step(a, s))
    ensures a.Apply? && Enabled(a, s) && InTheWay(a.apply, s) ==> Step(a, s) == Observe(Goto(s, Blocked))
  {
    hide LeavesForeignChildren, InTheWay, Observe;
    hide PerformGate, PerformCredential, PerformHandoff, PerformApply, PerformReport;
    if Enabled(a, s) {
      match a {
        case Gate(gate) => GatesLeaveChildren(gate, s);
        case Credential(credential) => CredentialsLeaveChildren(credential, s);
        case Handoff(handoff) => HandoffsLeaveForeignChildren(handoff, s);
        case Apply(apply) => AppliesLeaveForeignChildren(apply, s);
        case Report(report) => ReportsLeaveForeignChildren(report, s);
      }
      ObserveLeavesChildren(s, Perform(a, s));
    } else {
      NothingChangesNothing(s);
    }
  }

  lemma NothingChangesNothing(s: State)
    ensures LeavesForeignChildren(s, s)
  {
  }

  // -------------------------------------------------------------------------------------------
  // Secrets

  predicate ForeignAuthSecret(s: State) {
    GENERATED_AUTH_SECRET in s.secrets && s.secrets[GENERATED_AUTH_SECRET].owner == OtherOwner
  }

  /** The Secrets under other names are the same. */
  predicate OtherSecretsStay(s: State, t: State) {
    t.secrets - {GENERATED_AUTH_SECRET} == s.secrets - {GENERATED_AUTH_SECRET}
  }

  /** A patch is under way that was meant for a Secret without an owner, or without the fingerprint that the live
      one lacks as well. */
  predicate PatchTakesOver(a: Action, s: State) {
    && a.Credential? && a.credential.PatchGeneratedSecret? && s.phase == SecretSeen && ForeignAuthSecret(s)
    && var seen := s.work.seen;
    || seen.owner != ThisDBSync
    || (seen.fingerprint != WantedFingerprint(seen)
        && s.secrets[GENERATED_AUTH_SECRET].fingerprint != WantedFingerprint(seen))
  }

  lemma OthersKeepSecrets(a: Action, s: State)
    requires Enabled(a, s) && !a.Credential? && !a.Environment?
    ensures Perform(a, s).secrets == s.secrets
    ensures Perform(a, s).phase == SecretSeen ==> s.phase == SecretSeen
  {
  }

  lemma CredentialsAndSecrets(a: CredentialAction, s: State)
    requires CredentialEnabled(a, s) && ForeignAuthSecret(s)
    ensures var t := PerformCredential(a, s);
            && OtherSecretsStay(s, t) && GENERATED_AUTH_SECRET in t.secrets && t.phase != SecretSeen
            && (t.secrets[GENERATED_AUTH_SECRET] == s.secrets[GENERATED_AUTH_SECRET] <==> !PatchTakesOver(Credential(a), s))
  {
  }

  /** The controller leaves every Secret under another name alone, and a foreign auth Secret as well, except
      by a patch under way that was meant for the Secret it read before. */
  lemma SecretsAreLeftAloneIff(a: Action, s: State)
    requires !a.Environment? && ForeignAuthSecret(s)
    ensures var t := Step(a, s);
            && OtherSecretsStay(s, t) && GENERATED_AUTH_SECRET in t.secrets
            && (t.secrets[GENERATED_AUTH_SECRET] == s.secrets[GENERATED_AUTH_SECRET] <==> !PatchTakesOver(a, s))
            && (t.phase == SecretSeen ==> s.phase == SecretSeen)
  {
    hide PerformGate, PerformCredential, PerformHandoff, PerformApply, PerformReport, WantedFingerprint;
    if Enabled(a, s) {
      if a.Credential? {
        CredentialsAndSecrets(a.credential, s);
      } else {
        OthersKeepSecrets(a, s);
      }
    } else if a.Credential? && a.credential.PatchGeneratedSecret? {
      assert s.phase != SecretSeen;
    }
  }

  predicate ReplacesAuthSecret(a: Action) {
    && a.Environment?
    && (a.environment.PutSecret? || a.environment.DeleteSecret?) && a.environment.name == GENERATED_AUTH_SECRET
  }

  lemma DisturbKeepsAuthSecret(e: EnvironmentAction, s: State)
    requires ForeignAuthSecret(s) && !ReplacesAuthSecret(Environment(e))
    ensures var t := Disturb(e, s);
            ForeignAuthSecret(t) && t.secrets[GENERATED_AUTH_SECRET] == s.secrets[GENERATED_AUTH_SECRET] && t.phase == s.phase
  {
  }

  /** So a foreign auth Secret that is in place while no patch is under way is never changed, over any run, for as
      long as the user leaves it there. */
  lemma {:induction false} ForeignAuthSecretOutlivesRuns(s: State, actions: seq<Action>)
    requires ForeignAuthSecret(s) && s.phase != SecretSeen && forall a :: a in actions ==> !ReplacesAuthSecret(a)
    ensures ForeignAuthSecret(Run(s, actions))
    ensures Run(s, actions).secrets[GENERATED_AUTH_SECRET] == s.secrets[GENERATED_AUTH_SECRET]
    decreases actions
  {
    hide Disturb, PerformGate, PerformCredential, PerformHandoff, PerformApply, PerformReport;
    if actions != [] {
      var a := actions[0];
      assert a in actions;
      if a.Environment? {
        DisturbKeepsAuthSecret(a.environment, s);
      } else {
        SecretsAreLeftAloneIff(a, s);
      }
      ForeignAuthSecretOutlivesRuns(Step(a, s), actions[1..]);
    }
  }

  /** The exception as a run: the reconcile reads a restored Secret it may adopt, another owner's Secret takes
      its place, and the patch makes that one the controller's, over whatever password it holds. */
  lemma PatchTakesOverAForeignSecret(s: State, foreign: Secret, password: string)
    requires CredentialEnabled(ReadGeneratedSecret(password), s)
    requires GENERATED_AUTH_SECRET in s.secrets && s.secrets[GENERATED_AUTH_SECRET].owner == NoOwner
    requires ReadRestoredSecretStep(s, s.secrets[GENERATED_AUTH_SECRET]).phase == SecretSeen
    requires foreign.owner == OtherOwner
    ensures var t := Run(s, [Credential(ReadGeneratedSecret(password)),
                             Environment(PutSecret(GENERATED_AUTH_SECRET, foreign)),
                             Credential(PatchGeneratedSecret(false))]);
            && GENERATED_AUTH_SECRET in t.secrets && t.secrets[GENERATED_AUTH_SECRET].owner == ThisDBSync
            && t.secrets[GENERATED_AUTH_SECRET].password == foreign.password
  {
    hide Step, DataProblem;
    var calls := [Credential(ReadGeneratedSecret(password)), Environment(PutSecret(GENERATED_AUTH_SECRET, foreign)),
                  Credential(PatchGeneratedSecret(false))];
    var seen := Step(calls[0], s);
    ReadingSeesTheRestored(s, password);
    PuttingReplaces(seen, foreign);
    PatchTakes(Step(calls[1], seen), foreign);
    ThreeSteps(s, calls[0], calls[1], calls[2]);
  }

  lemma ReadingSeesTheRestored(s: State, password: string)
    requires CredentialEnabled(ReadGeneratedSecret(password), s)
    requires GENERATED_AUTH_SECRET in s.secrets && s.secrets[GENERATED_AUTH_SECRET].owner == NoOwner
    requires ReadRestoredSecretStep(s, s.secrets[GENERATED_AUTH_SECRET]).phase == SecretSeen
    ensures var seen := Step(Credential(ReadGeneratedSecret(password)), s);
            seen.phase == SecretSeen && seen.work.seen.owner == NoOwner
  {
  }

  lemma PuttingReplaces(seen: State, foreign: Secret)
    ensures var put := Step(Environment(PutSecret(GENERATED_AUTH_SECRET, foreign)), seen);
            && put.phase == seen.phase && put.work == seen.work
            && GENERATED_AUTH_SECRET in put.secrets && put.secrets[GENERATED_AUTH_SECRET] == foreign
  {
  }

  lemma PatchTakes(put: State, foreign: Secret)
    requires put.phase == SecretSeen && put.work.seen.owner == NoOwner
    requires GENERATED_AUTH_SECRET in put.secrets && put.secrets[GENERATED_AUTH_SECRET] == foreign
    ensures var t := Step(Credential(PatchGeneratedSecret(false)), put);
            && GENERATED_AUTH_SECRET in t.secrets && t.secrets[GENERATED_AUTH_SECRET].owner == ThisDBSync
            && t.secrets[GENERATED_AUTH_SECRET].password == foreign.password
  {
    hide DataProblem;
  }
}
