/** Resolving the database: for each database mode exactly when a reconcile left to itself resolves it, with which
    password, and what it leaves in the auth Secret. */
module Resolution {
  import opened Fingerprints
  import opened Protocol
  import opened Text
  import opened WholeReconcile
  import opened Decisions

  predicate Usable(password: string) {
    password != "" && '\r' !in password && '\n' !in password
  }

  /** The password that the state, the external Secret or the generator has for this database. */
  ghost predicate ResolvesTo(s: State, database: DatabaseMode, external: string, generated: string, password: string) {
    && Usable(password)
    && match database
       case External => password == external
       case Managed(_, _, _, Some(name)) =>
         TrimSpace(name) != "" && name in s.secrets && !s.secrets[name].deleting && password == s.secrets[name].password
       case Managed(image, name, user, None) =>
         if GENERATED_AUTH_SECRET in s.secrets then OwnSecretHolds(s, image, name, user, password)
         else password == generated && NoPostgresAccepted(s)
  }

  /** The generated Secret: our own under no fingerprint or the password's, or one without an owner whose password
      gives the accepted identity. */
  ghost predicate OwnSecretHolds(s: State, image: string, name: string, user: string, password: string)
    requires GENERATED_AUTH_SECRET in s.secrets
  {
    var current := s.secrets[GENERATED_AUTH_SECRET];
    password == current.password
    && match current.owner
       case ThisDBSync => current.fingerprint == Unset || current.fingerprint == Digest(password)
       case NoOwner =>
         PostgresIsAccepted(s, Digest(PostgresIdentity(image, name, user, "dbsync-postgres-auth", Digest(password), false)))
       case OtherOwner => false
  }

  ghost predicate NoPostgresAccepted(s: State) {
    forall identity :: !PostgresIsAccepted(s, identity)
  }

  /** The outcome for a password, in the Secrets and in the reconcile. */
  ghost predicate ResolvedWith(p: State, r: State, password: string) {
    var database := p.work.dbSync.spec.database;
    && r.phase == Resolved && r.work.credential.password == password
    && (match database
        case Managed(_, _, _, None) =>
          && r.work.credential.owner == ThisDBSync && r.work.credential.fingerprint == Digest(password)
          && r.secrets == p.secrets[GENERATED_AUTH_SECRET := r.work.credential]
          && (GENERATED_AUTH_SECRET in p.secrets ==>
                r.work.credential.deleting == p.secrets[GENERATED_AUTH_SECRET].deleting)
          && r.generated == p.generated + (if GENERATED_AUTH_SECRET in p.secrets then 0 else 1)
        case _ => r.secrets == p.secrets && r.generated == p.generated)
  }

  /** No Secret is gone or new, and none has another password. */
  predicate KeepsPasswords(p: State, r: State) {
    && p.secrets.Keys == r.secrets.Keys
    && forall name :: name in p.secrets ==> r.secrets[name].password == p.secrets[name].password
  }

  /** Resolved with the one password there is, or blocked with no password touched. */
  ghost predicate Resolves(p: State, r: State, external: string, generated: string) {
    var database := p.work.dbSync.spec.database;
    if exists password :: ResolvesTo(p, database, external, generated, password) then
      ResolvesTo(p, database, external, generated, r.work.credential.password)
      && ResolvedWith(p, r, r.work.credential.password)
    else r.phase == Blocked && KeepsPasswords(p, r) && r.generated == p.generated
  }

  function Credentials(external: string, generated: string, drift: bool): seq<Action> {
    [Credential(ResolveExternal(external)), Credential(ResolveProvided), Credential(ReadGeneratedSecret(generated)),
     Credential(PatchGeneratedSecret(drift))]
  }

  lemma CredentialCall(a: CredentialAction, s: State)
    requires Observed(s)
    ensures Step(Credential(a), s) == (if CredentialEnabled(a, s) then PerformCredential(a, s) else s)
    ensures Observed(Step(Credential(a), s))
  {
    if CredentialEnabled(a, s) {
      CredentialsOnlyResolve(a, s);
      Unobserved(s, Credential(a));
    }
  }

  lemma FirstThenRest(p: State, a: Action, rest: seq<Action>)
    ensures Run(p, [a] + rest) == Run(Step(a, p), rest)
  {
    RunConcat(p, [a], rest);
    OneStep(p, a);
  }

  lemma ExternalResolution(p: State, external: string, generated: string, drift: bool)
    requires p.phase == Placed && Observed(p) && p.work.dbSync.spec.database.External?
    ensures Resolves(p, Run(p, Credentials(external, generated, drift)), external, generated)
  {
    hide Run, Observed, Step;
    var calls := Credentials(external, generated, drift);
    CredentialCall(ResolveExternal(external), p);
    FirstThenRest(p, calls[0], calls[1..]);
    assert [calls[0]] + calls[1..] == calls;
    ResolvedStays(Step(calls[0], p), calls[1..]);
    assert Usable(external) ==> ResolvesTo(p, External, external, generated, external);
  }

  lemma ProvidedResolution(p: State, external: string, generated: string, drift: bool)
    requires p.phase == Placed && Observed(p)
    requires p.work.dbSync.spec.database.Managed? && p.work.dbSync.spec.database.authSecretRef.Some?
    ensures Resolves(p, Run(p, Credentials(external, generated, drift)), external, generated)
  {
    hide Run, Observed, Step, TrimSpace;
    var calls := Credentials(external, generated, drift);
    CredentialCall(ResolveExternal(external), p);
    CredentialCall(ResolveProvided, p);
    FirstThenRest(p, calls[0], calls[1..]);
    assert [calls[0]] + calls[1..] == calls;
    FirstThenRest(p, calls[1], calls[2..]);
    assert [calls[1]] + calls[2..] == calls[1..];
    ResolvedStays(Step(calls[1], p), calls[2..]);
    var name := p.work.dbSync.spec.database.authSecretRef.value;
    assert name in p.secrets && TrimSpace(name) != "" && !p.secrets[name].deleting && Usable(p.secrets[name].password) ==>
        ResolvesTo(p, p.work.dbSync.spec.database, external, generated, p.secrets[name].password);
  }

  /** An owned Secret is read on exactly if it carries no fingerprint or its password's; an empty password comes
      with no check. */
  lemma OwnedSecretIsReadIff(p: State, generated: string)
    requires p.work.dbSync.spec.database.Managed? && GENERATED_AUTH_SECRET in p.secrets
    requires p.secrets[GENERATED_AUTH_SECRET].owner == ThisDBSync
    ensures var c := p.secrets[GENERATED_AUTH_SECRET]; var t := ReadGeneratedSecretStep(p, generated);
            if c.password == "" || c.fingerprint == Unset || c.fingerprint == Digest(c.password)
            then t == p.(phase := SecretSeen, work := p.work.(seen := c))
            else t == p.(phase := Blocked)
  {
  }

  lemma UnownedSecretIsReadIff(p: State, generated: string)
    requires p.work.dbSync.spec.database.Managed? && p.work.dbSync.spec.database.authSecretRef.None?
    requires GENERATED_AUTH_SECRET in p.secrets && p.secrets[GENERATED_AUTH_SECRET].owner == NoOwner
    ensures var c := p.secrets[GENERATED_AUTH_SECRET]; var t := ReadGeneratedSecretStep(p, generated);
            var d := p.work.dbSync.spec.database;
            if Usable(c.password)
               && PostgresIsAccepted(p, Digest(PostgresIdentity(d.image, d.name, d.user, "dbsync-postgres-auth",
                                                                Digest(c.password), false)))
            then t == p.(phase := SecretSeen, work := p.work.(seen := c))
            else t == p.(phase := Blocked)
  {
    var c, d := p.secrets[GENERATED_AUTH_SECRET], p.work.dbSync.spec.database;
    assert d.(authSecretRef := None) == d;
    AcceptedPostgresIs(p, Digest(PostgresIdentity(d.image, d.name, d.user, "dbsync-postgres-auth", Digest(c.password),
                                                  false)));
  }

  lemma MissingSecretIsMadeIff(p: State, generated: string)
    requires p.work.dbSync.spec.database.Managed? && GENERATED_AUTH_SECRET !in p.secrets
    ensures var t := ReadGeneratedSecretStep(p, generated);
            var made := Secret(ThisDBSync, generated, Digest(generated), false);
            if NoPostgresAccepted(p)
            then t == p.(phase := Resolved, secrets := p.secrets[GENERATED_AUTH_SECRET := made],
                         generated := p.generated + 1, work := p.work.(credential := made))
            else t == p.(phase := Blocked)
  {
    if NoPostgresAccepted(p) {
      AcceptedPostgresIs(p, AcceptedPostgres(p));
    } else {
      var identity :| PostgresIsAccepted(p, identity);
      AcceptedPostgresIs(p, identity);
    }
  }

  /** The patch, with nothing in between: the Secret becomes ours under its password's fingerprint. */
  lemma SeenSecretIsPatched(p: State, drift: bool)
    requires p.phase == SecretSeen && GENERATED_AUTH_SECRET in p.secrets
    requires p.work.seen == p.secrets[GENERATED_AUTH_SECRET]
    requires var c := p.work.seen;
             c.owner != ThisDBSync || c.fingerprint in {Unset, Digest(c.password)} || c.password == ""
    ensures var c := p.work.seen; var t := PatchGeneratedSecretStep(p, drift);
            var patched := Secret(ThisDBSync, c.password, Digest(c.password), c.deleting);
            && t.generated == p.generated
            && (Usable(c.password) ==> t.phase == Resolved && t.work.credential == patched
                                       && t.secrets == p.secrets[GENERATED_AUTH_SECRET := patched])
            && (!Usable(c.password) ==> t.phase == Blocked && KeepsPasswords(p, t))
            && (c.password == "" ==>
                  t.secrets == p.secrets[GENERATED_AUTH_SECRET := Secret(ThisDBSync, "", Unset, c.deleting)])
  {
  }

  /** The patch over whatever the live Secret has become: without a difference to write, what was read is used; otherwise
      the live Secret is, with the owner and the fingerprint put in that were missing, unless it holds no usable
      password or ends up without a fingerprint. */
  lemma PatchResolvesIff(p: State, drift: bool)
    requires p.phase == SecretSeen
    ensures var c := p.work.seen; var t := PatchGeneratedSecretStep(p, drift);
            var wanted := if c.password == "" then Unset else Digest(c.password);
            var writes := drift || c.owner != ThisDBSync || c.fingerprint != wanted;
            && (!writes ==> t.secrets == p.secrets
                            && if Usable(c.password) then t.phase == Resolved && t.work.credential == c
                               else t.phase == Blocked)
            && (writes && GENERATED_AUTH_SECRET !in p.secrets ==> t == p.(phase := Idle))
            && (writes && GENERATED_AUTH_SECRET in p.secrets ==>
                  var live := p.secrets[GENERATED_AUTH_SECRET];
                  var patched := Secret(if c.owner != ThisDBSync then ThisDBSync else live.owner, live.password,
                                        if c.fingerprint != wanted then wanted else live.fingerprint, live.deleting);
                  && t.secrets == p.secrets[GENERATED_AUTH_SECRET := patched]
                  && if Usable(live.password) && patched.fingerprint != Unset
                     then t.phase == Resolved && t.work.credential == patched else t.phase == Blocked)
  {
  }

  lemma GeneratedResolution(p: State, external: string, generated: string, drift: bool)
    requires p.phase == Placed && Observed(p) && Usable(generated)
    requires p.work.dbSync.spec.database.Managed? && p.work.dbSync.spec.database.authSecretRef.None?
    ensures Resolves(p, Run(p, Credentials(external, generated, drift)), external, generated)
  {
    hide Run, Observed, Step, PostgresIsAccepted, ReadGeneratedSecretStep, PatchGeneratedSecretStep;
    var calls := Credentials(external, generated, drift);
    CredentialCall(ResolveExternal(external), p);
    CredentialCall(ResolveProvided, p);
    CredentialCall(ReadGeneratedSecret(generated), p);
    FirstThenRest(p, calls[0], calls[1..]);
    assert [calls[0]] + calls[1..] == calls;
    FirstThenRest(p, calls[1], calls[2..]);
    assert [calls[1]] + calls[2..] == calls[1..];
    FirstThenRest(p, calls[2], calls[3..]);
    assert [calls[2]] + calls[3..] == calls[2..] && calls[3..] == [calls[3]];
    var read := ReadGeneratedSecretStep(p, generated);
    OneStep(read, calls[3]);
    CredentialCall(PatchGeneratedSecret(drift), read);
    GeneratedCases(p, external, generated, drift);
  }

  lemma GeneratedCases(p: State, external: string, generated: string, drift: bool)
    requires p.phase == Placed && Usable(generated)
    requires p.work.dbSync.spec.database.Managed? && p.work.dbSync.spec.database.authSecretRef.None?
    ensures var read := ReadGeneratedSecretStep(p, generated);
            Resolves(p, if read.phase == SecretSeen then PatchGeneratedSecretStep(read, drift) else read, external, generated)
  {
    hide PostgresIsAccepted;
    var read, d := ReadGeneratedSecretStep(p, generated), p.work.dbSync.spec.database;
    if GENERATED_AUTH_SECRET !in p.secrets {
      MissingSecretIsMadeIff(p, generated);
      assert NoPostgresAccepted(p) ==> ResolvesTo(p, d, external, generated, generated);
    } else {
      var c := p.secrets[GENERATED_AUTH_SECRET];
      if c.owner == ThisDBSync {
        OwnedSecretIsReadIff(p, generated);
      } else if c.owner == NoOwner {
        UnownedSecretIsReadIff(p, generated);
      }
      if read.phase == SecretSeen {
        SeenSecretIsPatched(read, drift);
      }
      assert ResolvesTo(p, d, external, generated, c.password) <==> read.phase == SecretSeen && Usable(c.password);
    }
  }

  /** A sidecar needs the incumbency, and an unknown placement is refused. */
  predicate Placeable(spec: UserSpec, incumbent: bool) {
    match spec.placement
    case None => true
    case Some(DedicatedFollower) => true
    case Some(PrimarySidecar) => incumbent
    case Some(UnknownMode) => false
  }

  /** The fetched object, past the placement check. */
  function Checked(s: State): State {
    s.(phase := Placed, work := s.work.(dbSync := s.live))
  }

  /** A reconcile left to itself resolves its database exactly if its placement is let through and the state holds a
      usable password for its database mode, and then with that password; otherwise it is blocked and no password
      is touched. */
  lemma ResolvesIff(s: State, incumbent: bool, external: string, generated: string, drift: bool)
    requires s.phase == Idle && Observed(s) && Usable(generated)
    ensures var r := Run(s, Resolving(incumbent, external, generated, drift));
            if Placeable(s.live.spec, incumbent) then Resolves(Checked(s), r, external, generated)
            else r.phase == Blocked && r.secrets == s.secrets && r.generated == s.generated
  {
    hide Run, Step, Observed, Resolves;
    var calls := Resolving(incumbent, external, generated, drift);
    var checks := [Gate(Fetch), Gate(CheckPlacement(incumbent))];
    assert calls == checks + Credentials(external, generated, drift);
    RunConcat(s, checks, Credentials(external, generated, drift));
    FetchAndCheck(s, incumbent);
    FirstThenRest(s, checks[0], checks[1..]);
    assert [checks[0]] + checks[1..] == checks && checks[1..] == [checks[1]];
    OneStep(Step(checks[0], s), checks[1]);
    var p := Run(s, checks);
    if Placeable(s.live.spec, incumbent) {
      assert p == Checked(s);
      match s.live.spec.database
      case External => ExternalResolution(p, external, generated, drift);
      case Managed(_, _, _, Some(_)) => ProvidedResolution(p, external, generated, drift);
      case Managed(_, _, _, None) => GeneratedResolution(p, external, generated, drift);
    } else {
      StoppedStays(p, Credentials(external, generated, drift));
    }
  }
}
