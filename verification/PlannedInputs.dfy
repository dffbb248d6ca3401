/** What the planner's normal form, its verdict and its plan say, field by field of the given spec
    (internal/cardano/dbsync). */
module PlannedInputs {
  import opened Fingerprints
  import opened Text
  import opened Planner
  import opened Plans
  import opened CommandLine

  /** A trimmed field that has a default. */
  predicate Says(value: string, given: string, fallback: string) {
    value == if TrimSpace(given) == "" then fallback else TrimSpace(given)
  }

  lemma NamesAreGiven(s: Spec)
    ensures var n := Normal(s);
            && n.networkName == TrimSpace(s.networkName) && n.requiresNetworkMagic == s.requiresNetworkMagic
            && n.networkArtifactHash == TrimSpace(s.networkArtifactHash) && n.image == TrimSpace(s.image)
            && n.nodeToNode.host == TrimSpace(s.nodeToNode.host) && n.nodeToNode.port == s.nodeToNode.port
  {
    hide TrimSpace;
  }

  lemma DatabaseIsGiven(s: Spec)
    ensures var d, g := Normal(s).database, s.database;
            && d.host == TrimSpace(g.host) && d.port == (if g.port == 0 then 5432 else g.port)
            && Says(d.name, g.name, "cexplorer") && Says(d.user, g.user, "postgres")
            && d.passwordSecretName == TrimSpace(g.passwordSecretName)
            && Says(d.passwordSecretKey, g.passwordSecretKey, "password") && Says(d.sslMode, g.sslMode, "disable")
  {
    hide TrimSpace;
  }

  lemma RuntimeAndStorageAreGiven(s: Spec)
    ensures var n := Normal(s);
            && n.runtime == s.runtime.(metricsPort := if s.runtime.metricsPort == 0 then 8080 else s.runtime.metricsPort)
            && Says(n.storage.ledgerBackend, s.storage.ledgerBackend, "lsm")
            && n.storage.nearTipEpoch == (if s.storage.nearTipEpoch == 0 then 580 else s.storage.nearTipEpoch)
            && n.storage.stateStorageSize ==
                 (if TrimSpace(s.storage.stateStorageSize) == "" then "10Gi" else s.storage.stateStorageSize)
  {
    hide TrimSpace;
  }

  /** No insert option is set, whitespace aside. */
  predicate NoInsertOption(o: Insert) {
    && TrimSpace(o.txCBOR) == "" && TrimSpace(o.txOut.mode) == "" && !o.txOut.forceTxIn && !o.txOut.useAddressTable
    && TrimSpace(o.ledger) == "" && TrimSpace(o.governance) == "" && TrimSpace(o.offchainPoolData) == ""
    && TrimSpace(o.offchainVoteData) == "" && TrimSpace(o.poolStats) == "" && TrimSpace(o.jsonType) == ""
    && TrimSpace(o.removeJSONBFromSchema) == ""
    && NoFeature(o.shelley) && NoFeature(o.multiAsset) && NoFeature(o.metadata) && NoFeature(o.plutus)
  }

  predicate NoFeature(f: Feature) {
    !f.enabled && f.stakeAddresses == [] && f.policies == [] && f.keys == [] && f.scriptHashes == []
  }

  /** A feature is kept as given, or, where no insert option is set, on for everything. */
  predicate FeatureSays(f: Feature, given: Feature, none: bool) {
    f == if none then Feature(true, [], [], [], []) else given
  }

  lemma InsertIsGiven(s: Spec)
    ensures var o, g := Normal(s).insert, s.insert; var none := NoInsertOption(s.insert);
            && Says(o.txCBOR, g.txCBOR, "disable") && Says(o.txOut.mode, g.txOut.mode, "enable")
            && o.txOut.forceTxIn == g.txOut.forceTxIn && o.txOut.useAddressTable == g.txOut.useAddressTable
            && Says(o.ledger, g.ledger, "enable") && Says(o.governance, g.governance, "enable")
            && Says(o.offchainPoolData, g.offchainPoolData, "disable")
            && Says(o.offchainVoteData, g.offchainVoteData, "disable")
            && Says(o.poolStats, g.poolStats, "enable") && Says(o.jsonType, g.jsonType, "text")
            && Says(o.removeJSONBFromSchema, g.removeJSONBFromSchema, "disable")
            && FeatureSays(o.shelley, g.shelley, none) && FeatureSays(o.multiAsset, g.multiAsset, none)
            && FeatureSays(o.metadata, g.metadata, none) && FeatureSays(o.plutus, g.plutus, none)
  {
    hide TrimSpace;
  }

  lemma PathsAreGiven(s: Spec)
    ensures var p, g := Normal(s).paths, s.paths;
            && Says(p.configFile, g.configFile, "/config/db-sync-config.yaml")
            && Says(p.topologyFile, g.topologyFile, "/config/follower-topology.json")
            && Says(p.nodeConfig, g.nodeConfig, "/network-artifacts/configuration.yaml")
            && Says(p.socketPath, g.socketPath, "/ipc/node.socket") && Says(p.stateDir, g.stateDir, "/var/lib/cexplorer")
            && Says(p.pgPassFile, g.pgPassFile, "/configuration/pgpass")
  {
    hide TrimSpace;
  }

  /** The gateways: one by one, trimmed, blanks dropped, in the order given. */
  lemma {:induction false} GatewaysAreGiven(first: seq<string>, gateway: string, rest: seq<string>)
    ensures TrimStrings([]) == []
    ensures TrimStrings(first + [gateway] + rest) ==
            TrimStrings(first) + (if TrimSpace(gateway) == "" then [] else [TrimSpace(gateway)]) + TrimStrings(rest)
  {
    hide TrimSpace;
    if first == [] {
      assert first + [gateway] + rest == [gateway] + rest && ([gateway] + rest)[1..] == rest;
    } else {
      assert (first + [gateway] + rest)[1..] == first[1..] + [gateway] + rest;
      GatewaysAreGiven(first[1..], gateway, rest);
    }
  }

  predicate BadPort(port: int) {
    port < 1 || port > 65535
  }

  /** Which violations of the database section a given spec has: a field with a default is never missing, and a
      zero port never out of range. */
  lemma DatabaseViolationsOfTheGiven(s: Spec)
    ensures var n := Normal(s); var g := s.database;
            && (Violates(n, DatabaseHostRequired) <==> TrimSpace(g.host) == "")
            && (Violates(n, DatabasePortRange) <==> g.port != 0 && BadPort(g.port))
            && (Violates(n, SecretNameRequired) <==> TrimSpace(g.passwordSecretName) == "")
            && !Violates(n, DatabaseNameRequired) && !Violates(n, DatabaseUserRequired) && !Violates(n, SecretKeyRequired)
  {
    hide TrimSpace, Normal, Says;
    DatabaseIsGiven(s);
    DefaultsAreThere(s);
  }

  /** And which others. */
  lemma ViolationsOfTheGiven(s: Spec)
    ensures var n := Normal(s);
            && (Violates(n, NetworkNameRequired) <==> TrimSpace(s.networkName) == "")
            && (Violates(n, ImageRequired) <==> TrimSpace(s.image) == "")
            && (Violates(n, NodeHostRequired) <==> TrimSpace(s.nodeToNode.host) == "")
            && (Violates(n, NodePortRange) <==> BadPort(s.nodeToNode.port))
            && (Violates(n, MetricsPortRange) <==> s.runtime.metricsPort != 0 && BadPort(s.runtime.metricsPort))
            && (Violates(n, BootstrapOnLSM) <==>
                  && (TrimSpace(s.storage.ledgerBackend) == "" || TrimSpace(s.storage.ledgerBackend) == "lsm")
                  && TrimSpace(s.insert.txOut.mode) == "bootstrap")
  {
    hide TrimSpace, Normal;
    NamesAreGiven(s);
    MetricsPortIsGiven(s);
    LedgerBackendIsGiven(s);
    BootstrapIsGiven(s);
  }

  lemma MetricsPortIsGiven(s: Spec)
    ensures Normal(s).runtime.metricsPort == if s.runtime.metricsPort == 0 then 8080 else s.runtime.metricsPort
  {
    hide TrimSpace, Normal;
    RuntimeAndStorageAreGiven(s);
  }

  lemma DefaultsAreThere(s: Spec)
    ensures var d := Normal(s).database; d.name != "" && d.user != "" && d.passwordSecretKey != ""
  {
    hide TrimSpace, Normal;
    DatabaseIsGiven(s);
  }

  lemma LedgerBackendIsGiven(s: Spec)
    ensures Normal(s).storage.ledgerBackend == "lsm" <==>
              TrimSpace(s.storage.ledgerBackend) == "" || TrimSpace(s.storage.ledgerBackend) == "lsm"
  {
    hide TrimSpace, Normal;
    RuntimeAndStorageAreGiven(s);
  }

  lemma BootstrapIsGiven(s: Spec)
    ensures Normal(s).insert.txOut.mode == "bootstrap" <==> TrimSpace(s.insert.txOut.mode) == "bootstrap"
  {
    hide TrimSpace, Normal;
    InsertIsGiven(s);
    assert "enable"[0] != "bootstrap"[0];
  }

  // -------------------------------------------------------------------------------------------
  // The plan

  /** The rendered configuration and topology, on the given spec. */
  lemma FilesSayTheGiven(s: Spec)
    ensures var p := PlanOf(Normal(s)); var c := p.config;
            && p.spec == Normal(s) && c.networkName == TrimSpace(s.networkName)
            && Says(c.nodeConfigFile, s.paths.nodeConfig, "/network-artifacts/configuration.yaml")
            && c.requiresNetworkMagic == (if s.requiresNetworkMagic then "RequiresMagic" else "RequiresNoMagic")
            && c.prometheusPort == (if s.runtime.metricsPort == 0 then 8080 else s.runtime.metricsPort)
            && Says(c.ledgerBackend, s.storage.ledgerBackend, "lsm")
            && c.nearTipEpoch == (if s.storage.nearTipEpoch == 0 then 580 else s.storage.nearTipEpoch)
            && c.insertOptions == Normal(s).insert && c.ipfsGateway == TrimStrings(s.ipfsGateways)
            && p.topology.address == TrimSpace(s.nodeToNode.host) && p.topology.port == s.nodeToNode.port
  {
    hide TrimSpace;
    NamesAreGiven(s);
    PathsAreGiven(s);
    RuntimeAndStorageAreGiven(s);
  }

  /** The database identity, on the given spec. */
  lemma IdentitySaysTheGiven(s: Spec)
    ensures var p := PlanOf(Normal(s));
            && p.fingerprint == Digest(Normal(s)) && p.identity.Digest?
            && var i := p.identity.of;
            && i.networkName == TrimSpace(s.networkName) && i.requiresNetworkMagic == s.requiresNetworkMagic
            && i.networkArtifactHash == TrimSpace(s.networkArtifactHash) && i.image == TrimSpace(s.image)
            && i.host == TrimSpace(s.database.host) && i.port == (if s.database.port == 0 then 5432 else s.database.port)
            && Says(i.name, s.database.name, "cexplorer") && Says(i.user, s.database.user, "postgres")
            && Says(i.ledgerBackend, s.storage.ledgerBackend, "lsm") && i.insert == Normal(s).insert
  {
    hide TrimSpace;
    NamesAreGiven(s);
    DatabaseIsGiven(s);
    RuntimeAndStorageAreGiven(s);
  }

  // -------------------------------------------------------------------------------------------
  // The command line

  const CONFIG := "--config"
  const SOCKET := "--socket-path"
  const PG_PASS := "--pg-pass-env"
  const VALUED: set<string> := {CONFIG, SOCKET, PG_PASS}

  const NO_CACHE := "--disable-cache"
  const NO_EPOCH := "--disable-epoch"
  const INDEXES := "--force-indexes"

  lemma FlagsDiffer()
    ensures CONFIG != SOCKET && CONFIG != PG_PASS && SOCKET != PG_PASS
    ensures NO_CACHE !in VALUED && NO_EPOCH !in VALUED && INDEXES !in VALUED
    ensures NO_CACHE != NO_EPOCH && NO_CACHE != INDEXES && NO_EPOCH != INDEXES
  {
    assert CONFIG[2] == 'c' && SOCKET[2] == 's' && PG_PASS[2] == 'p';
    assert NO_CACHE[2] == 'd' && NO_EPOCH[2] == 'd' && INDEXES[2] == 'f';
    assert NO_CACHE[10] != NO_EPOCH[10];
  }

  /** db-sync reads back the paths, the variable that names its password file, and exactly the switches set. */
  lemma ArgumentsAreRead(s: Spec)
    ensures var r := Read(Arguments(s), VALUED);
            && r.options == map[CONFIG := s.paths.configFile, SOCKET := s.paths.socketPath, PG_PASS := "PGPASSFILE"]
            && r.switches == (if s.runtime.disableCache then {NO_CACHE} else {})
                             + (if s.runtime.disableEpochTable then {NO_EPOCH} else {})
                             + (if s.runtime.forceIndexes then {INDEXES} else {})
  {
    FlagsDiffer();
    SwitchesAreRead(s.runtime);
    var flags := Flags(s.runtime);
    var third := [PG_PASS, "PGPASSFILE"] + flags;
    var second := [SOCKET, s.paths.socketPath] + third;
    OptionIsRead(PG_PASS, "PGPASSFILE", flags, VALUED);
    OptionIsRead(SOCKET, s.paths.socketPath, third, VALUED);
    OptionIsRead(CONFIG, s.paths.configFile, second, VALUED);
    assert Arguments(s) == [CONFIG, s.paths.configFile] + second;
  }

  lemma SwitchesAreRead(r: Runtime)
    ensures Read(Flags(r), VALUED) ==
            Reading(map[], (if r.disableCache then {NO_CACHE} else {}) + (if r.disableEpochTable then {NO_EPOCH} else {})
                           + (if r.forceIndexes then {INDEXES} else {}))
  {
    FlagsDiffer();
    var third := if r.forceIndexes then [INDEXES] else [];
    var second := (if r.disableEpochTable then [NO_EPOCH] else []) + third;
    SwitchIsRead(INDEXES, [], VALUED);
    SwitchIsRead(NO_EPOCH, third, VALUED);
    SwitchIsRead(NO_CACHE, second, VALUED);
    assert [INDEXES] + [] == [INDEXES];
    assert second == if r.disableEpochTable then [NO_EPOCH] + third else third;
    assert Flags(r) == if r.disableCache then [NO_CACHE] + second else second;
  }
}
