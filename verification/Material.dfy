/** The material a primary sidecar mounts and the revision published for it
    (internal/controller/cardanodbsync: builder.go, resources.go, primary_sidecar_status.go). */
module Material {
  import opened Fingerprints
  import opened Text
  import opened Planner
  import opened Plans
  import opened PgPass
  import opened PlannedInputs
  import Ports

  datatype Names = Names(configMap: string, pgPassSecret: string, statePVC: string, metricsService: string)

  /** The rendered objects: the ConfigMap holds the plan's config and topology under the annotations
      plan fingerprint, identity and artifact hash; the Secret holds the password file under the
      fingerprint of its text. */
  datatype Bundle = Bundle(names: Names, artifactHash: string, plan: Plan, pgPass: string)

  /** `primarySidecarMaterialRevisionInput`. */
  datatype RevisionInput = RevisionInput(names: Names, plan: Fingerprint<Spec>, identity: Fingerprint<DatabaseIdentity>,
                                         credential: Fingerprint<string>, artifactHash: string)

  function Revision(b: Bundle): Fingerprint<RevisionInput> {
    Digest(RevisionInput(b.names, b.plan.fingerprint, b.plan.identity, Digest(b.pgPass), b.artifactHash))
  }

  /** The fields of the password line; a port out of range has no rendering. */
  function PgPassFields(s: Spec, password: string): seq<string> {
    if s.database.port < 0 then [] else
    [s.database.host, Itoa(s.database.port), s.database.name, s.database.user, password]
  }

  /** `b` was rendered from an accepted plan and this password. */
  ghost predicate Renders(b: Bundle, password: string) {
    && Acceptable(b.plan.spec) && b.plan == PlanOf(b.plan.spec) && password != ""
    && b.pgPass == Render(PgPassFields(b.plan.spec, password))
  }

  /** What the builder takes from the CardanoDBSync and the CardanoNetwork. `spec` holds the planner inputs
      that are copied; its image, endpoint, magic and metrics port are replaced. `sizeParses` is whether the
      state storage size is a quantity. */
  datatype Request = Request(names: Names, artifactHash: string, artifactsURL: string, network: Ports.Network,
                             endpoint: Option<NodeToNode>, nodeVersion: string, image: string,
                             followerImage: Option<string>, metricsPort: int, sizeParses: bool, spec: Spec)

  datatype BuildError =
    | ArtifactsURLRequired | UnsupportedNetwork(error: Ports.SidecarError) | EndpointRequired | BlankImage
    | BlankFollowerImage | NodeVersionRequired
    | Unplannable(violations: seq<Violation>) | BadStorageSize | Unrenderable(problem: RenderError)

  /** `dbSyncPlanSpec` on a request with an endpoint. */
  function PlanSpec(q: Request): Spec
    requires q.endpoint.Some?
  {
    q.spec.(requiresNetworkMagic := true, image := TrimSpace(q.image), nodeToNode := q.endpoint.value,
            networkArtifactHash := q.artifactHash,
            runtime := q.spec.runtime.(metricsPort := Ports.SidecarMetricsPort(q.metricsPort)))
  }

  /** A request that gets as far as the planner. */
  predicate Plannable(q: Request) {
    && TrimSpace(q.artifactsURL) != "" && Ports.ValidateSidecar(q.network, q.metricsPort).None?
    && q.endpoint.Some? && TrimSpace(q.image) != ""
    && if q.followerImage.Some? then TrimSpace(q.followerImage.value) != "" else TrimSpace(q.nodeVersion) != ""
  }

  /** The requests a bundle is built for. */
  ghost predicate Buildable(q: Request, data: map<string, string>) {
    && Plannable(q) && q.sizeParses && Acceptable(Normal(PlanSpec(q)))
    && var s := Normal(PlanSpec(q)); var password := PasswordIn(data, s.database.passwordSecretKey);
    password != "" && forall field :: field in PgPassFields(s, password) ==> !HasNewline(field)
  }

  function PasswordIn(data: map<string, string>, key: string): string {
    if key in data then data[key] else ""
  }

  /** `pgPassFile`: the Secret's password under the plan's key, with the plan's endpoint. */
  method RenderPgPass(s: Spec, data: map<string, string>) returns (r: Result<string, RenderError>)
    requires s.database.port >= 0
    ensures var password := PasswordIn(data, s.database.passwordSecretKey);
            && (r.Ok? ==> password != "" && r.value == Render(PgPassFields(s, password)))
            && (r.Ok? ==> s.database.passwordSecretKey in data && password == data[s.database.passwordSecretKey])
            && (r.Err? <==> password == "" || exists field :: field in PgPassFields(s, password) && HasNewline(field))
  {
    var d := s.database;
    var password := PasswordIn(data, d.passwordSecretKey);
    r := PgPassFile(d.host, d.port, d.name, d.user, password);
    ghost var fields := PgPassFields(s, password);
    if r.Err? && r.error.NewlineIn? {
      assert fields[r.error.field] in fields;
    }
  }

  lemma PlansHaveUsableEndpoints(s: Spec)
    requires Acceptable(s)
    ensures s.database.host != "" && 1 <= s.database.port <= 65535
  {
    assert !Violates(s, DatabaseHostRequired) && !Violates(s, DatabasePortRange);
  }

  /** The reported problem is really there. */
  ghost predicate Explains(e: BuildError, q: Request, data: map<string, string>) {
    match e
    case ArtifactsURLRequired => TrimSpace(q.artifactsURL) == ""
    case UnsupportedNetwork(error) => Ports.ValidateSidecar(q.network, q.metricsPort) == Some(error)
    case EndpointRequired => q.endpoint.None?
    case BlankImage => TrimSpace(q.image) == ""
    case BlankFollowerImage => q.followerImage.Some? && TrimSpace(q.followerImage.value) == ""
    case NodeVersionRequired => q.followerImage.None? && TrimSpace(q.nodeVersion) == ""
    case Unplannable(_) => q.endpoint.Some? && !Acceptable(Normal(PlanSpec(q)))
    case BadStorageSize => !q.sizeParses
    case Unrenderable(_) => q.endpoint.Some? && Acceptable(Normal(PlanSpec(q))) && !Buildable(q, data)
  }

  /** What the plan of a request says: the request's own image, artifacts, endpoint and port, the magic required, and
      the rest as the planner takes it from the copied inputs. */
  lemma PlanSaysTheRequest(q: Request)
    requires q.endpoint.Some?
    ensures var n := Normal(PlanSpec(q));
            && n.requiresNetworkMagic && n.image == TrimSpace(q.image) && n.networkArtifactHash == TrimSpace(q.artifactHash)
            && n.nodeToNode.host == TrimSpace(q.endpoint.value.host) && n.nodeToNode.port == q.endpoint.value.port
            && n.runtime.metricsPort == (if q.metricsPort == 0 then 8080 else q.metricsPort)
            && n.networkName == TrimSpace(q.spec.networkName) && n.database == Normal(q.spec).database
            && n.storage == Normal(q.spec).storage && n.insert == Normal(q.spec).insert && n.paths == Normal(q.spec).paths
            && n.ipfsGateways == Normal(q.spec).ipfsGateways
  {
    hide TrimSpace;
    NamesAreGiven(PlanSpec(q));
  }

  /** The checks before the plan. */
  method CheckRequest(q: Request, ghost data: map<string, string>) returns (problem: Option<BuildError>)
    ensures problem.None? <==> Plannable(q)
    ensures problem.Some? ==> Explains(problem.value, q, data) && !problem.value.Unplannable?
    ensures problem == Some(ArtifactsURLRequired) <==> TrimSpace(q.artifactsURL) == ""
    ensures problem.None? ==>
              && q.endpoint.Some? && TrimSpace(q.image) != "" && Ports.ValidateSidecar(q.network, q.metricsPort).None?
              && (if q.followerImage.Some? then TrimSpace(q.followerImage.value) != "" else TrimSpace(q.nodeVersion) != "")
  {
    hide TrimSpace, Normal, Acceptable, Buildable, Ports.ValidateSidecar;
    if TrimSpace(q.artifactsURL) == "" {
      return Some(ArtifactsURLRequired);
    }
    var unsupported := Ports.ValidateSidecar(q.network, q.metricsPort);
    if unsupported.Some? {
      return Some(UnsupportedNetwork(unsupported.value));
    }
    if q.endpoint.None? {
      return Some(EndpointRequired);
    }
    if TrimSpace(q.image) == "" {
      return Some(BlankImage);
    }
    if q.followerImage.Some? && TrimSpace(q.followerImage.value) == "" {
      return Some(BlankFollowerImage);
    }
    if TrimSpace(q.nodeVersion) == "" && q.followerImage.None? {
      return Some(NodeVersionRequired);
    }
    return None;
  }

  lemma RenderableIff(q: Request, data: map<string, string>)
    requires Plannable(q) && Acceptable(Normal(PlanSpec(q)))
    ensures var s := Normal(PlanSpec(q)); var password := PasswordIn(data, s.database.passwordSecretKey);
            Buildable(q, data) <==>
              q.sizeParses && password != "" && forall field :: field in PgPassFields(s, password) ==> !HasNewline(field)
    ensures !q.sizeParses ==> Explains(BadStorageSize, q, data)
    ensures !Buildable(q, data) ==> forall problem :: Explains(Unrenderable(problem), q, data)
  {
    hide TrimSpace, Normal, Acceptable, PgPassFields, Ports.ValidateSidecar, PlanSpec;
  }

  /** The rendering after the plan. */
  method RenderBundle(q: Request, plan: Plan, data: map<string, string>) returns (r: Result<Bundle, BuildError>)
    requires Plannable(q) && Acceptable(Normal(PlanSpec(q))) && plan == PlanOf(Normal(PlanSpec(q)))
    ensures r.Ok? <==> Buildable(q, data)
    ensures r.Ok? ==>
              && r.value.names == q.names && r.value.artifactHash == q.artifactHash && r.value.plan == plan
              && Renders(r.value, PasswordIn(data, plan.spec.database.passwordSecretKey))
              && q.sizeParses && plan.spec.database.passwordSecretKey in data
    ensures r.Err? ==> Explains(r.error, q, data) && !r.error.Unplannable? && !r.error.ArtifactsURLRequired?
  {
    hide TrimSpace, Normal, Acceptable, PgPassFields, Ports.ValidateSidecar, PlanSpec, Render, Plannable, Buildable, Explains;
    hide RenderConfig, IdentityOf, Arguments, HasNewline;
    RenderableIff(q, data);
    if !q.sizeParses {
      return Err(BadStorageSize);
    }
    PlansHaveUsableEndpoints(plan.spec);
    var pgPass := RenderPgPass(plan.spec, data);
    if pgPass.Err? {
      return Err(Unrenderable(pgPass.error));
    }
    return Ok(Bundle(q.names, q.artifactHash, plan, pgPass.value));
  }

  /** `BuildPrimarySidecarForDatabase`; `data` is the database Secret's. A bundle is built for exactly the
      buildable requests, and its db-sync listens on a port that no container of the primary Pod owns. */
  method BuildPrimarySidecarMaterial(q: Request, data: map<string, string>) returns (r: Result<Bundle, BuildError>)
    ensures r.Ok? <==> Buildable(q, data)
    ensures r.Ok? ==>
              && r.value.names == q.names && r.value.artifactHash == q.artifactHash
              && r.value.plan.spec == Normal(PlanSpec(q))
              && Renders(r.value, PasswordIn(data, r.value.plan.spec.database.passwordSecretKey))
              && r.value.plan.config.prometheusPort !in Ports.Owners(q.network)
    ensures r == Err(ArtifactsURLRequired) <==> TrimSpace(q.artifactsURL) == ""
    ensures r.Err? ==> Explains(r.error, q, data)
    ensures r.Ok? ==>
              && q.endpoint.Some? && TrimSpace(q.image) != "" && q.sizeParses
              && r.value.plan.spec.database.passwordSecretKey in data
              && (if q.followerImage.Some? then TrimSpace(q.followerImage.value) != "" else TrimSpace(q.nodeVersion) != "")
    ensures r.Err? && r.error.Unplannable? ==>
              q.endpoint.Some? && forall v :: v in r.error.violations <==> Violates(Normal(PlanSpec(q)), v)
  {
    hide TrimSpace, Normal, Acceptable, PgPassFields, Ports.Owners, Plannable, PlanSpec, Render, PasswordIn;
    var problem := CheckRequest(q, data);
    if problem.Some? {
      return Err(problem.value);
    }
    var planned := BuildPlan(PlanSpec(q));
    if planned.Err? {
      return Err(Unplannable(planned.error));
    }
    r := RenderBundle(q, planned.value, data);
    MetricsPortIsKept(q);
  }

  /** The port that is checked is the port that is rendered. */
  lemma MetricsPortIsKept(q: Request)
    requires q.endpoint.Some?
    ensures Normal(PlanSpec(q)).runtime.metricsPort == Ports.SidecarMetricsPort(q.metricsPort)
  {
    hide TrimSpace;
  }

  /** The revision is complete: two published revisions are equal exactly when the names, the network
      artifacts, the normalized spec and the password are, and then every mounted byte is. */
  lemma RevisionIsComplete(a: Bundle, b: Bundle, passwordA: string, passwordB: string)
    requires Renders(a, passwordA) && Renders(b, passwordB)
    ensures Revision(a) == Revision(b) <==>
              && a.names == b.names && a.artifactHash == b.artifactHash
              && a.plan.spec == b.plan.spec && passwordA == passwordB
    ensures Revision(a) == Revision(b) ==>
              && a.plan.config == b.plan.config && a.plan.topology == b.plan.topology && a.pgPass == b.pgPass
  {
    PlansHaveUsableEndpoints(a.plan.spec);
    PlansHaveUsableEndpoints(b.plan.spec);
    if a.pgPass == b.pgPass {
      RenderInjective(PgPassFields(a.plan.spec, passwordA), PgPassFields(b.plan.spec, passwordB));
      assert PgPassFields(a.plan.spec, passwordA)[4] == PgPassFields(b.plan.spec, passwordB)[4];
    }
  }

  /** What the accepted identity stands for in the mounted material: two bundles of one identity feed the
      database alike, and their password files are equal exactly if their passwords are. */
  lemma IdentityPinsTheMountedEndpoint(a: Bundle, b: Bundle, passwordA: string, passwordB: string)
    requires Renders(a, passwordA) && Renders(b, passwordB) && a.plan.identity == b.plan.identity
    ensures FeedAlike(a.plan.config, b.plan.config)
    ensures a.pgPass == b.pgPass <==> passwordA == passwordB
  {
    hide Render;
    PlansHaveUsableEndpoints(a.plan.spec);
    PlansHaveUsableEndpoints(b.plan.spec);
    IdentityPinsDatabaseInputs(a.plan.spec, b.plan.spec);
    if a.pgPass == b.pgPass {
      RenderInjective(PgPassFields(a.plan.spec, passwordA), PgPassFields(b.plan.spec, passwordB));
      assert PgPassFields(a.plan.spec, passwordA)[4] == PgPassFields(b.plan.spec, passwordB)[4];
    }
  }

  /** What the mounted files stand for: config, topology and password file of two bundles are equal exactly if
      the password, the endpoint and the inputs below are; and then the identities are equal exactly if the
      image and the network artifacts are. */
  lemma MountedFilesPinTheirInputs(a: Bundle, b: Bundle, passwordA: string, passwordB: string)
    requires Renders(a, passwordA) && Renders(b, passwordB)
    ensures var s, t := a.plan.spec, b.plan.spec;
            a.plan.config == b.plan.config && a.plan.topology == b.plan.topology && a.pgPass == b.pgPass <==>
              && passwordA == passwordB && s.database.host == t.database.host && s.database.port == t.database.port
              && s.database.name == t.database.name && s.database.user == t.database.user
              && s.networkName == t.networkName && s.requiresNetworkMagic == t.requiresNetworkMagic
              && s.paths.nodeConfig == t.paths.nodeConfig && s.runtime.metricsPort == t.runtime.metricsPort
              && s.storage.ledgerBackend == t.storage.ledgerBackend && s.storage.nearTipEpoch == t.storage.nearTipEpoch
              && s.insert == t.insert && s.ipfsGateways == t.ipfsGateways && s.nodeToNode == t.nodeToNode
    ensures a.plan.config == b.plan.config && a.pgPass == b.pgPass ==>
              (a.plan.identity == b.plan.identity <==>
                 a.plan.spec.image == b.plan.spec.image && a.plan.spec.networkArtifactHash == b.plan.spec.networkArtifactHash)
  {
    hide Render, RenderConfig, Itoa, Acceptable;
    var s, t := a.plan.spec, b.plan.spec;
    PlansHaveUsableEndpoints(s);
    PlansHaveUsableEndpoints(t);
    FilesPinTheirInputs(s, t);
    IdentityPinsDatabaseInputs(s, t);
    if a.pgPass == b.pgPass {
      RenderInjective(PgPassFields(s, passwordA), PgPassFields(t, passwordB));
      EndpointFromFields(s, t, passwordA, passwordB);
    }
  }

  lemma EndpointFromFields(s: Spec, t: Spec, passwordA: string, passwordB: string)
    requires s.database.port >= 0 && t.database.port >= 0 && PgPassFields(s, passwordA) == PgPassFields(t, passwordB)
    ensures passwordA == passwordB && s.database.host == t.database.host && s.database.port == t.database.port
    ensures s.database.name == t.database.name && s.database.user == t.database.user
  {
    var x, y := PgPassFields(s, passwordA), PgPassFields(t, passwordB);
    assert x[0] == y[0] && x[1] == y[1] && x[2] == y[2] && x[3] == y[3] && x[4] == y[4];
    ItoaIsDecimal(s.database.port);
    ItoaIsDecimal(t.database.port);
  }

  /** What the sidecar's libpq client finds in the mounted file: the password, unless the database host
      begins with '#'. */
  lemma SidecarFindsItsPasswordIff(b: Bundle, password: string)
    requires Renders(b, password)
    requires forall field :: field in PgPassFields(b.plan.spec, password) ==> '\n' !in field
    ensures var d := b.plan.spec.database;
            && d.host != "" && d.port >= 0
            && (Lookup(b.pgPass, [d.host, Itoa(d.port), d.name, d.user]) == Some(password) <==> d.host[0] != '#')
  {
    PlansHaveUsableEndpoints(b.plan.spec);
    var d := b.plan.spec.database;
    ClientFindsPasswordIff(d.host, Itoa(d.port), d.name, d.user, password);
  }
}
