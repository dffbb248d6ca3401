/** A run in which an edit of the identity mirror, and nothing else, blocks an object that has
    accepted no database yet. */
module MirrorWitness {
  import opened Fingerprints
  import opened Planner
  import opened Protocol
  import opened StatusMirror

  const PASSWORD := "pw"

  /** The first reconcile stops at a missing dependency and reports it. */
  const FIRST_RECONCILE := [Gate(Fetch), Report(Block), Report(SuspendBlocked), Report(PatchBlocked)]

  /** The next one comes as far as the placement gate. */
  const SECOND_RECONCILE :=
    [Gate(Fetch), Gate(CheckPlacement(true)), Credential(ResolveExternal(PASSWORD)), Gate(GatePostgres), Gate(GateIdentity)]

  function Reported(s: State): State {
    s.(live := s.live.(status := ConditionsStatus(s.live)), work := s.work.(dbSync := s.live))
  }

  lemma FirstReconcile(s: State)
    requires Initial(s)
    ensures Run(s, FIRST_RECONCILE) == Reported(s)
  {
    hide Run;
    var fetched := s.(phase := Fetched, work := s.work.(dbSync := s.live));
    assert [] + [Gate(Fetch)] == FIRST_RECONCILE[..1];
    NoActions(s);
    Then(s, [], s, Gate(Fetch), fetched);
    assert FIRST_RECONCILE[..1] + [Report(Block)] == FIRST_RECONCILE[..2];
    Then(s, FIRST_RECONCILE[..1], fetched, Report(Block), Goto(fetched, Blocked));
    assert FIRST_RECONCILE[..2] + [Report(SuspendBlocked)] == FIRST_RECONCILE[..3];
    Then(s, FIRST_RECONCILE[..2], Goto(fetched, Blocked), Report(SuspendBlocked), Goto(fetched, BlockedSuspended));
    assert FIRST_RECONCILE[..3] + [Report(PatchBlocked)] == FIRST_RECONCILE;
    Then(s, FIRST_RECONCILE[..3], Goto(fetched, BlockedSuspended), Report(PatchBlocked), Reported(s));
  }

  /** The object uses an external database, has accepted no database and offers nothing. */
  predicate Fresh(s: State) {
    && s.phase == Idle && !s.live.status.material.ready && AcceptedIdentity(s.statePVC) == Unset
    && EffectiveMode(s.live.spec) != UnknownMode && s.live.spec.database.External?
  }

  function AtPlacementGate(s: State): State {
    s.(phase := IdentityGated, work := Work(s.live, s.work.seen, Secret(NoOwner, PASSWORD, Unset, false)))
  }

  lemma SecondReconcile(s: State)
    requires Fresh(s)
    ensures Run(s, SECOND_RECONCILE) == AtPlacementGate(s)
  {
    hide Run;
    var fetched := s.(phase := Fetched, work := s.work.(dbSync := s.live));
    var resolved := AtPlacementGate(s).(phase := Resolved);
    assert [] + [Gate(Fetch)] == SECOND_RECONCILE[..1];
    NoActions(s);
    Then(s, [], s, Gate(Fetch), fetched);
    assert SECOND_RECONCILE[..1] + [Gate(CheckPlacement(true))] == SECOND_RECONCILE[..2];
    Then(s, SECOND_RECONCILE[..1], fetched, Gate(CheckPlacement(true)), Goto(fetched, Placed));
    assert SECOND_RECONCILE[..2] + [Credential(ResolveExternal(PASSWORD))] == SECOND_RECONCILE[..3];
    Then(s, SECOND_RECONCILE[..2], Goto(fetched, Placed), Credential(ResolveExternal(PASSWORD)), resolved);
    assert SECOND_RECONCILE[..3] + [Gate(GatePostgres)] == SECOND_RECONCILE[..4];
    Then(s, SECOND_RECONCILE[..3], resolved, Gate(GatePostgres), Goto(resolved, PostgresGated));
    assert SECOND_RECONCILE[..4] + [Gate(GateIdentity)] == SECOND_RECONCILE;
    Then(s, SECOND_RECONCILE[..4], Goto(resolved, PostgresGated), Gate(GateIdentity), Goto(resolved, IdentityGated));
  }

  function WithSpec(s: State, spec: UserSpec): State {
    Disturb(EditSpec(spec), Reported(s))
  }

  /** The user moves an object that never ran a database from dedicated to sidecar placement. */
  lemma MoveIsAccepted(s: State, spec: UserSpec)
    requires Initial(s) && EffectiveMode(spec) == PrimarySidecar && spec.database.External?
    ensures var t := Run(s, FIRST_RECONCILE + [Environment(EditSpec(spec))] + SECOND_RECONCILE);
            t.phase == IdentityGated && GatePlacementStep(t).phase == PlacementGated
  {
    hide Run;
    FirstReconcile(s);
    var edited := WithSpec(s, spec);
    Then(s, FIRST_RECONCILE, Reported(s), Environment(EditSpec(spec)), edited);
    RunConcat(s, FIRST_RECONCILE + [Environment(EditSpec(spec))], SECOND_RECONCILE);
    SecondReconcile(edited);
  }

  /** The same move, with any text written into the identity mirror before it: the gate takes the
      placement the first report published for an accepted one and refuses the move. */
  lemma MirrorEditBlocksTheMove(s: State, spec: UserSpec, text: Fingerprint<DatabaseIdentity>)
    requires Initial(s) && EffectiveMode(s.live.spec) == DedicatedFollower && text != Unset
    requires EffectiveMode(spec) == PrimarySidecar && spec.database.External?
    ensures var edits := [Environment(EditSpec(spec)), Environment(EditIdentityMirror(text))];
            var t := Run(s, FIRST_RECONCILE + edits + SECOND_RECONCILE);
            t.phase == IdentityGated && GatePlacementStep(t).phase == Blocked
  {
    hide Run;
    var edits := [Environment(EditSpec(spec)), Environment(EditIdentityMirror(text))];
    FirstReconcile(s);
    var edited := WithSpec(s, spec);
    var mirrored := Disturb(EditIdentityMirror(text), edited);
    Then(s, FIRST_RECONCILE, Reported(s), edits[0], edited);
    Then(s, FIRST_RECONCILE + [edits[0]], edited, edits[1], mirrored);
    assert FIRST_RECONCILE + [edits[0]] + [edits[1]] == FIRST_RECONCILE + edits;
    RunConcat(s, FIRST_RECONCILE + edits, SECOND_RECONCILE);
    SecondReconcile(mirrored);
  }
}
