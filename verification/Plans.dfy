/** The rendered db-sync plan (internal/cardano/dbsync: plan.go, config.go, topology.go, fingerprint.go):
    what the two fingerprints pin down. */
module Plans {
  import opened Fingerprints
  import opened Text
  import opened Planner

  /** The spec-dependent part of the rendered db-sync configuration; the rest is constant. YAML and
      JSON encoding are taken to be injective, so a rendered file is identified with this value. */
  datatype Config = Config(networkName: string, nodeConfigFile: string, requiresNetworkMagic: string,
                           prometheusPort: int, ledgerBackend: string, nearTipEpoch: int, insertOptions: Insert,
                           ipfsGateway: seq<string>)

  /** The follower topology: one local root. */
  datatype Topology = Topology(address: string, port: int)

  datatype Plan = Plan(spec: Spec, config: Config, topology: Topology, arguments: seq<string>,
                       fingerprint: Fingerprint<Spec>, identity: Fingerprint<DatabaseIdentity>)

  function RenderConfig(s: Spec): Config {
    Config(s.networkName, s.paths.nodeConfig, if s.requiresNetworkMagic then "RequiresMagic" else "RequiresNoMagic",
           s.runtime.metricsPort, s.storage.ledgerBackend, s.storage.nearTipEpoch, s.insert, s.ipfsGateways)
  }

  function IdentityOf(s: Spec): DatabaseIdentity {
    DatabaseIdentity(s.networkName, s.requiresNetworkMagic, s.networkArtifactHash, s.image, s.database.host,
                     s.database.port, s.database.name, s.database.user, s.storage.ledgerBackend, s.insert)
  }

  function Flags(r: Runtime): seq<string> {
    (if r.disableCache then ["--disable-cache"] else []) + (if r.disableEpochTable then ["--disable-epoch"] else [])
    + if r.forceIndexes then ["--force-indexes"] else []
  }

  function Arguments(s: Spec): seq<string> {
    ["--config", s.paths.configFile, "--socket-path", s.paths.socketPath, "--pg-pass-env", "PGPASSFILE"]
    + Flags(s.runtime)
  }

  /** `buildInvocation`. */
  method BuildInvocation(s: Spec) returns (args: seq<string>)
    ensures args == Arguments(s)
  {
    args := ["--config", s.paths.configFile, "--socket-path", s.paths.socketPath, "--pg-pass-env", "PGPASSFILE"];
    if s.runtime.disableCache {
      args := args + ["--disable-cache"];
    }
    if s.runtime.disableEpochTable {
      args := args + ["--disable-epoch"];
    }
    if s.runtime.forceIndexes {
      args := args + ["--force-indexes"];
    }
  }

  /** The command line tells its inputs apart: no flag can be read for another. */
  lemma ArgumentsInjective(a: Spec, b: Spec)
    requires Arguments(a) == Arguments(b)
    ensures a.paths.configFile == b.paths.configFile && a.paths.socketPath == b.paths.socketPath
    ensures a.runtime.(metricsPort := b.runtime.metricsPort) == b.runtime
  {
    assert Arguments(a)[1] == Arguments(b)[1] && Arguments(a)[3] == Arguments(b)[3];
    assert Flags(a.runtime) == Arguments(a)[6..] == Arguments(b)[6..] == Flags(b.runtime);
    FlagsTell(a.runtime);
    FlagsTell(b.runtime);
  }

  lemma FlagsTell(r: Runtime)
    ensures "--disable-cache" in Flags(r) <==> r.disableCache
    ensures "--disable-epoch" in Flags(r) <==> r.disableEpochTable
    ensures "--force-indexes" in Flags(r) <==> r.forceIndexes
  {
    var cache, epoch, indexes := "--disable-cache", "--disable-epoch", "--force-indexes";
    assert cache[2] != indexes[2] && epoch[2] != indexes[2] && cache[10] != epoch[10];
  }

  function PlanOf(s: Spec): Plan {
    Plan(s, RenderConfig(s), Topology(s.nodeToNode.host, s.nodeToNode.port), Arguments(s), Digest(s),
         Digest(IdentityOf(s)))
  }

  /** `BuildPlan`: the plan of the normal form, or every violation of it. */
  method BuildPlan(s: Spec) returns (r: Result<Plan, seq<Violation>>)
    ensures Acceptable(Normal(s)) ==> r == Ok(PlanOf(Normal(s)))
    ensures !Acceptable(Normal(s)) ==> r.Err? && forall v :: v in r.error <==> Violates(Normal(s), v)
  {
    hide TrimSpace;
    var normalized := NormalizeSpec(s);
    if normalized.Err? {
      return Err(normalized.error);
    }
    var n := normalized.value;
    var args := BuildInvocation(n);
    return Ok(Plan(n, RenderConfig(n), Topology(n.nodeToNode.host, n.nodeToNode.port), args, Digest(n),
                   Digest(IdentityOf(n))));
  }

  // -------------------------------------------------------------------------------------------
  // What a plan depends on

  /** Planning a plan's own spec gives the same plan: normalization is a projection onto specs that
      pass validation. */
  lemma ReplanningIsStable(s: Spec)
    requires Acceptable(Normal(s))
    ensures Acceptable(Normal(PlanOf(Normal(s)).spec))
    ensures PlanOf(Normal(PlanOf(Normal(s)).spec)) == PlanOf(Normal(s))
  {
    hide TrimSpace;
    NormalIdempotent(s);
  }

  /** Whitespace around the trimmed fields changes neither acceptance nor any part of the plan. */
  lemma PaddingKeepsThePlan(a: Spec, b: Spec)
    requires PaddedSpec(a, b)
    ensures Acceptable(Normal(b)) == Acceptable(Normal(a))
    ensures PlanOf(Normal(b)) == PlanOf(Normal(a))
  {
    hide TrimSpace;
    PaddingIsIgnored(a, b);
  }

  function EffectiveSize(size: string, fallback: string): string {
    if TrimSpace(size) == "" then fallback else size
  }

  function WithSize(s: Spec, size: string): Spec {
    s.(storage := s.storage.(stateStorageSize := size))
  }

  lemma TrimmingKeepsSize(s: Spec, size: string)
    ensures TrimInputs(WithSize(s, size)) == WithSize(TrimInputs(s), size)
  {
    hide TrimSpace;
  }

  lemma DefaultingKeepsSize(t: Spec, size: string, d: Defaults)
    ensures ApplyDefaults(WithSize(t, size), d) ==
            WithSize(ApplyDefaults(t, d), EffectiveSize(size, d.storage.stateStorageSize))
    ensures ApplyDefaults(t, d).storage.stateStorageSize ==
            EffectiveSize(t.storage.stateStorageSize, d.storage.stateStorageSize)
  {
    hide TrimSpace;
    var n := ApplyDefaults(WithSize(t, size), d);
    assert n.paths == DefaultPaths(t.paths, d.paths);
  }

  /** The state storage size is not trimmed: another text for it, be it only padding, changes the plan
      fingerprint unless both are blank, and nothing else in the plan. */
  lemma StorageSizeTextIsFingerprinted(s: Spec, size: string)
    ensures var p, q := PlanOf(Normal(s)), PlanOf(Normal(WithSize(s, size)));
            var fallback := DEFAULTS.storage.stateStorageSize;
            && (p.fingerprint == q.fingerprint <==>
                  EffectiveSize(s.storage.stateStorageSize, fallback) == EffectiveSize(size, fallback))
            && p.identity == q.identity && p.config == q.config && p.topology == q.topology
            && p.arguments == q.arguments
  {
    hide TrimSpace;
    TrimmingKeepsSize(s, size);
    DefaultingKeepsSize(TrimInputs(s), size, DEFAULTS);
    WithSizeKeepsTheRest(Normal(s), EffectiveSize(size, DEFAULTS.storage.stateStorageSize));
  }

  lemma WithSizeKeepsTheRest(n: Spec, size: string)
    ensures var p, q := PlanOf(n), PlanOf(WithSize(n, size));
            && (p.fingerprint == q.fingerprint <==> n.storage.stateStorageSize == size)
            && p.identity == q.identity && p.config == q.config && p.topology == q.topology
            && p.arguments == q.arguments
  {
    assert n == WithSize(n, n.storage.stateStorageSize);
  }

  /** The mounted files change with their inputs and with nothing else: config and topology of two specs
      are equal exactly when these inputs are. */
  lemma FilesPinTheirInputs(a: Spec, b: Spec)
    ensures RenderConfig(a) == RenderConfig(b) && PlanOf(a).topology == PlanOf(b).topology <==>
              && a.networkName == b.networkName && a.requiresNetworkMagic == b.requiresNetworkMagic
              && a.paths.nodeConfig == b.paths.nodeConfig && a.runtime.metricsPort == b.runtime.metricsPort
              && a.storage.ledgerBackend == b.storage.ledgerBackend && a.storage.nearTipEpoch == b.storage.nearTipEpoch
              && a.insert == b.insert && a.ipfsGateways == b.ipfsGateways && a.nodeToNode == b.nodeToNode
  {
    var yes, no := "RequiresMagic", "RequiresNoMagic";
    assert yes[8] != no[8];
  }

  /** Two configurations that feed the database alike: they differ at most in node config path, metrics
      port, snapshot interval and gateways. */
  predicate FeedAlike(c: Config, d: Config) {
    c == d.(nodeConfigFile := c.nodeConfigFile, prometheusPort := c.prometheusPort,
            nearTipEpoch := c.nearTipEpoch, ipfsGateway := c.ipfsGateway)
  }

  /** Equal database identities mean equal database inputs, and conversely: configurations that feed the
      database alike, the same database endpoint, image and network artifacts. */
  lemma IdentityPinsDatabaseInputs(a: Spec, b: Spec)
    ensures PlanOf(a).identity == PlanOf(b).identity <==>
              && FeedAlike(RenderConfig(a), RenderConfig(b))
              && a.database.host == b.database.host && a.database.port == b.database.port
              && a.database.name == b.database.name && a.database.user == b.database.user
              && a.image == b.image && a.networkArtifactHash == b.networkArtifactHash
  {
    var yes, no := "RequiresMagic", "RequiresNoMagic";
    assert yes[8] != no[8];
  }
}
