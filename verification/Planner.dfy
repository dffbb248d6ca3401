/** The db-sync planner (internal/cardano/dbsync): normalization, validation, the two fingerprints
    and the rendered material. */
module Planner {
  import opened Fingerprints
  import opened Text

  datatype NodeToNode = NodeToNode(host: string, port: int)

  datatype Database = Database(host: string, port: int, name: string, user: string,
                               passwordSecretName: string, passwordSecretKey: string, sslMode: string)

  datatype Runtime = Runtime(disableCache: bool, disableEpochTable: bool, forceIndexes: bool, metricsPort: int)

  datatype Storage = Storage(ledgerBackend: string, nearTipEpoch: int, stateStorageSize: string)

  datatype TxOut = TxOut(mode: string, forceTxIn: bool, useAddressTable: bool)

  datatype Feature = Feature(enabled: bool, stakeAddresses: seq<string>, policies: seq<string>,
                             keys: seq<int>, scriptHashes: seq<string>)

  datatype Insert = Insert(txCBOR: string, txOut: TxOut, ledger: string, shelley: Feature, multiAsset: Feature,
                           metadata: Feature, plutus: Feature, governance: string, offchainPoolData: string,
                           offchainVoteData: string, poolStats: string, jsonType: string,
                           removeJSONBFromSchema: string)

  datatype Paths = Paths(configFile: string, topologyFile: string, nodeConfig: string, socketPath: string,
                         stateDir: string, pgPassFile: string)

  datatype Spec = Spec(networkName: string, requiresNetworkMagic: bool, networkArtifactHash: string, image: string,
                       nodeToNode: NodeToNode, database: Database, runtime: Runtime, storage: Storage,
                       insert: Insert, ipfsGateways: seq<string>, paths: Paths)

  /** The inputs that force the Postgres data directory to be recreated (`databaseIdentity`). */
  datatype DatabaseIdentity = DatabaseIdentity(networkName: string, requiresNetworkMagic: bool,
                                               networkArtifactHash: string, image: string, host: string, port: int,
                                               name: string, user: string, ledgerBackend: string, insert: Insert)

  // -------------------------------------------------------------------------------------------
  // Defaults

  datatype Defaults = Defaults(database: Database, metricsPort: int, storage: Storage, insert: Insert, paths: Paths)

  const NO_FEATURE := Feature(false, [], [], [], [])
  const ALL_OF_FEATURE := Feature(true, [], [], [], [])

  const DEFAULTS :=
    Defaults(Database("", 5432, "cexplorer", "postgres", "", "password", "disable"), 8080, Storage("lsm", 580, "10Gi"),
             Insert("disable", TxOut("enable", false, false), "enable", ALL_OF_FEATURE, ALL_OF_FEATURE, ALL_OF_FEATURE,
                    ALL_OF_FEATURE, "enable", "disable", "disable", "enable", "text", "disable"),
             Paths("/config/db-sync-config.yaml", "/config/follower-topology.json",
                   "/network-artifacts/configuration.yaml", "/ipc/node.socket", "/var/lib/cexplorer",
                   "/configuration/pgpass"))

  function Or(value: string, fallback: string): string {
    if value == "" then fallback else value
  }

  /** `defaultPath`. */
  function TrimOr(value: string, fallback: string): string {
    Or(TrimSpace(value), fallback)
  }

  // -------------------------------------------------------------------------------------------
  // Normalization

  /** The trimmed non-blank strings, in order. */
  function TrimStrings(values: seq<string>): seq<string> {
    if values == [] then []
    else if TrimSpace(values[0]) == "" then TrimStrings(values[1..])
    else [TrimSpace(values[0])] + TrimStrings(values[1..])
  }

  lemma {:induction false} TrimStringsAppend(values: seq<string>, value: string)
    ensures TrimStrings(values + [value]) ==
            TrimStrings(values) + if TrimSpace(value) == "" then [] else [TrimSpace(value)]
  {
    hide TrimSpace;
    if values == [] {
    } else {
      assert (values + [value])[1..] == values[1..] + [value];
      TrimStringsAppend(values[1..], value);
    }
  }

  /** `trimStrings`. */
  method CollectTrimmed(values: seq<string>) returns (trimmed: seq<string>)
    ensures trimmed == TrimStrings(values)
    ensures forall v :: v in trimmed ==> v != "" && Trimmed(v)
  {
    hide TrimSpace;
    trimmed := [];
    for i := 0 to |values|
      invariant trimmed == TrimStrings(values[..i])
      invariant forall v :: v in trimmed ==> v != "" && Trimmed(v)
    {
      assert values[..i + 1] == values[..i] + [values[i]];
      TrimStringsAppend(values[..i], values[i]);
      var value := TrimSpace(values[i]);
      if value == "" {
        continue;
      }
      trimmed := trimmed + [value];
    }
    assert values[..|values|] == values;
  }

  function TrimInsert(o: Insert): Insert {
    Insert(TrimSpace(o.txCBOR), o.txOut.(mode := TrimSpace(o.txOut.mode)), TrimSpace(o.ledger), o.shelley, o.multiAsset,
           o.metadata, o.plutus, TrimSpace(o.governance), TrimSpace(o.offchainPoolData), TrimSpace(o.offchainVoteData),
           TrimSpace(o.poolStats), TrimSpace(o.jsonType), TrimSpace(o.removeJSONBFromSchema))
  }

  function TrimDatabase(d: Database): Database {
    Database(TrimSpace(d.host), d.port, TrimSpace(d.name), TrimSpace(d.user), TrimSpace(d.passwordSecretName),
             TrimSpace(d.passwordSecretKey), TrimSpace(d.sslMode))
  }

  /** The first part of `normalizeSpec`. The state storage size and the feature filters stay as they
      are; the paths are trimmed where they are defaulted. */
  function TrimInputs(s: Spec): Spec {
    Spec(TrimSpace(s.networkName), s.requiresNetworkMagic, TrimSpace(s.networkArtifactHash), TrimSpace(s.image),
         NodeToNode(TrimSpace(s.nodeToNode.host), s.nodeToNode.port), TrimDatabase(s.database), s.runtime,
         s.storage.(ledgerBackend := TrimSpace(s.storage.ledgerBackend)), TrimInsert(s.insert),
         TrimStrings(s.ipfsGateways), s.paths)
  }

  /** `insertOptionsZero`. */
  predicate InsertIsZero(o: Insert) {
    o == Insert("", TxOut("", false, false), "", NO_FEATURE, NO_FEATURE, NO_FEATURE, NO_FEATURE, "", "", "", "", "", "")
  }

  function DefaultInsert(o: Insert, d: Insert): Insert {
    if InsertIsZero(o) then d
    else Insert(Or(o.txCBOR, d.txCBOR), o.txOut.(mode := Or(o.txOut.mode, d.txOut.mode)), Or(o.ledger, d.ledger),
                o.shelley, o.multiAsset, o.metadata, o.plutus, Or(o.governance, d.governance),
                Or(o.offchainPoolData, d.offchainPoolData), Or(o.offchainVoteData, d.offchainVoteData),
                Or(o.poolStats, d.poolStats), Or(o.jsonType, d.jsonType),
                Or(o.removeJSONBFromSchema, d.removeJSONBFromSchema))
  }

  function DefaultDatabase(o: Database, d: Database): Database {
    Database(o.host, if o.port == 0 then d.port else o.port, Or(o.name, d.name), Or(o.user, d.user),
             o.passwordSecretName, Or(o.passwordSecretKey, d.passwordSecretKey), Or(o.sslMode, d.sslMode))
  }

  function DefaultStorage(o: Storage, d: Storage): Storage {
    Storage(Or(o.ledgerBackend, d.ledgerBackend), if o.nearTipEpoch == 0 then d.nearTipEpoch else o.nearTipEpoch,
            if TrimSpace(o.stateStorageSize) == "" then d.stateStorageSize else o.stateStorageSize)
  }

  function DefaultPaths(o: Paths, d: Paths): Paths {
    Paths(TrimOr(o.configFile, d.configFile), TrimOr(o.topologyFile, d.topologyFile), TrimOr(o.nodeConfig, d.nodeConfig),
          TrimOr(o.socketPath, d.socketPath), TrimOr(o.stateDir, d.stateDir), TrimOr(o.pgPassFile, d.pgPassFile))
  }

  function ApplyDefaults(s: Spec, d: Defaults): Spec {
    var metricsPort := if s.runtime.metricsPort == 0 then d.metricsPort else s.runtime.metricsPort;
    s.(database := DefaultDatabase(s.database, d.database), runtime := s.runtime.(metricsPort := metricsPort),
       storage := DefaultStorage(s.storage, d.storage), insert := DefaultInsert(s.insert, d.insert),
       paths := DefaultPaths(s.paths, d.paths))
  }

  /** The normal form of a spec, before validation. */
  function Normal(s: Spec): Spec {
    ApplyDefaults(TrimInputs(s), DEFAULTS)
  }

  // -------------------------------------------------------------------------------------------
  // Validation

  datatype Violation =
    | NetworkNameRequired | ImageRequired | NodeHostRequired | NodePortRange | DatabaseHostRequired
    | DatabasePortRange | DatabaseNameRequired | DatabaseUserRequired | SecretNameRequired | SecretKeyRequired
    | MetricsPortRange | BootstrapOnLSM

  predicate PortInRange(port: int) {
    1 <= port <= 65535
  }

  predicate DatabaseViolates(d: Database, v: Violation) {
    match v
    case DatabaseHostRequired => d.host == ""
    case DatabasePortRange => !PortInRange(d.port)
    case DatabaseNameRequired => d.name == ""
    case DatabaseUserRequired => d.user == ""
    case SecretNameRequired => d.passwordSecretName == ""
    case SecretKeyRequired => d.passwordSecretKey == ""
    case _ => false
  }

  predicate Violates(s: Spec, v: Violation) {
    match v
    case NetworkNameRequired => s.networkName == ""
    case ImageRequired => s.image == ""
    case NodeHostRequired => s.nodeToNode.host == ""
    case NodePortRange => !PortInRange(s.nodeToNode.port)
    case MetricsPortRange => !PortInRange(s.runtime.metricsPort)
    case BootstrapOnLSM => s.storage.ledgerBackend == "lsm" && s.insert.txOut.mode == "bootstrap"
    case _ => DatabaseViolates(s.database, v)
  }

  ghost predicate Acceptable(s: Spec) {
    forall v :: !Violates(s, v)
  }

  /** Appends a violation where there is one. */
  method Note(errs: seq<Violation>, violated: bool, v: Violation) returns (noted: seq<Violation>)
    ensures forall w :: w in noted <==> w in errs || (violated && w == v)
  {
    noted := if violated then errs + [v] else errs;
  }

  /** The checks of the database section. */
  method ValidateDatabase(given: seq<Violation>, d: Database) returns (errs: seq<Violation>)
    ensures forall v :: v in errs <==> v in given || DatabaseViolates(d, v)
  {
    errs := Note(given, d.host == "", DatabaseHostRequired);
    errs := Note(errs, d.port < 1 || d.port > 65535, DatabasePortRange);
    errs := Note(errs, d.name == "", DatabaseNameRequired);
    errs := Note(errs, d.user == "", DatabaseUserRequired);
    errs := Note(errs, d.passwordSecretName == "", SecretNameRequired);
    errs := Note(errs, d.passwordSecretKey == "", SecretKeyRequired);
  }

  /** `validateSpec`: every violation is reported, and nothing else. */
  method ValidateSpec(s: Spec) returns (errs: seq<Violation>)
    ensures forall v :: v in errs <==> Violates(s, v)
    ensures errs == [] <==> Acceptable(s)
  {
    errs := Note([], s.networkName == "", NetworkNameRequired);
    errs := Note(errs, s.image == "", ImageRequired);
    errs := Note(errs, s.nodeToNode.host == "", NodeHostRequired);
    errs := Note(errs, s.nodeToNode.port < 1 || s.nodeToNode.port > 65535, NodePortRange);
    errs := ValidateDatabase(errs, s.database);
    errs := Note(errs, s.runtime.metricsPort < 1 || s.runtime.metricsPort > 65535, MetricsPortRange);
    errs := Note(errs, s.storage.ledgerBackend == "lsm" && s.insert.txOut.mode == "bootstrap", BootstrapOnLSM);
    EmptyMeansAcceptable(s, errs);
  }

  lemma EmptyMeansAcceptable(s: Spec, errs: seq<Violation>)
    requires forall v :: v in errs <==> Violates(s, v)
    ensures errs == [] <==> Acceptable(s)
  {
    if errs != [] {
      assert errs[0] in errs;
    }
  }

  method NormalizeDatabase(given: Database) returns (d: Database)
    ensures d == DefaultDatabase(given, DEFAULTS.database)
  {
    d := given;
    if d.port == 0 {
      d := d.(port := 5432);
    }
    if d.name == "" {
      d := d.(name := "cexplorer");
    }
    if d.user == "" {
      d := d.(user := "postgres");
    }
    if d.passwordSecretKey == "" {
      d := d.(passwordSecretKey := "password");
    }
    if d.sslMode == "" {
      d := d.(sslMode := "disable");
    }
  }

  method NormalizeStorage(given: Storage) returns (g: Storage)
    ensures g == DefaultStorage(given, DEFAULTS.storage)
  {
    hide TrimSpace;
    g := given;
    if g.ledgerBackend == "" {
      g := g.(ledgerBackend := "lsm");
    }
    if g.nearTipEpoch == 0 {
      g := g.(nearTipEpoch := 580);
    }
    if TrimSpace(g.stateStorageSize) == "" {
      g := g.(stateStorageSize := "10Gi");
    }
  }

  method NormalizeInsert(given: Insert) returns (o: Insert)
    ensures o == DefaultInsert(given, DEFAULTS.insert)
  {
    o := given;
    if InsertIsZero(o) {
      o := DEFAULTS.insert;
    }
    o := o.(txCBOR := Or(o.txCBOR, "disable"));
    o := o.(txOut := o.txOut.(mode := Or(o.txOut.mode, "enable")));
    o := o.(ledger := Or(o.ledger, "enable"), governance := Or(o.governance, "enable"));
    o := o.(offchainPoolData := Or(o.offchainPoolData, "disable"), offchainVoteData := Or(o.offchainVoteData, "disable"));
    o := o.(poolStats := Or(o.poolStats, "enable"), jsonType := Or(o.jsonType, "text"));
    o := o.(removeJSONBFromSchema := Or(o.removeJSONBFromSchema, "disable"));
  }

  /** `normalizeSpec`: trim, default, validate. */
  method NormalizeSpec(given: Spec) returns (r: Result<Spec, seq<Violation>>)
    ensures Acceptable(Normal(given)) ==> r == Ok(Normal(given))
    ensures !Acceptable(Normal(given)) ==> r.Err? && forall v :: v in r.error <==> Violates(Normal(given), v)
  {
    hide TrimSpace;
    var s := given;
    s := s.(networkName := TrimSpace(s.networkName), networkArtifactHash := TrimSpace(s.networkArtifactHash));
    s := s.(image := TrimSpace(s.image), nodeToNode := s.nodeToNode.(host := TrimSpace(s.nodeToNode.host)));
    s := s.(database := TrimDatabase(s.database), insert := TrimInsert(s.insert));
    s := s.(storage := s.storage.(ledgerBackend := TrimSpace(s.storage.ledgerBackend)));
    var gateways := CollectTrimmed(s.ipfsGateways);
    s := s.(ipfsGateways := gateways);

    var insert := NormalizeInsert(s.insert);
    var database := NormalizeDatabase(s.database);
    var storage := NormalizeStorage(s.storage);
    s := s.(insert := insert, database := database, storage := storage);
    if s.runtime.metricsPort == 0 {
      s := s.(runtime := s.runtime.(metricsPort := 8080));
    }
    s := s.(paths := DefaultPaths(s.paths, DEFAULTS.paths));

    assert s == Normal(given);
    var errs := ValidateSpec(s);
    if errs != [] {
      return Err(errs);
    }
    return Ok(s);
  }

  // -------------------------------------------------------------------------------------------
  // Normalization is a projection

  lemma {:induction false} TrimStringsIdempotent(values: seq<string>)
    ensures TrimStrings(TrimStrings(values)) == TrimStrings(values)
  {
    hide TrimSpace;
    if values != [] {
      TrimStringsIdempotent(values[1..]);
      if TrimSpace(values[0]) != "" {
        assert TrimStrings(values)[1..] == TrimStrings(values[1..]);
      }
    }
  }

  predicate TrimmedInsert(o: Insert) {
    && Trimmed(o.txCBOR) && Trimmed(o.txOut.mode) && Trimmed(o.ledger) && Trimmed(o.governance)
    && Trimmed(o.offchainPoolData) && Trimmed(o.offchainVoteData) && Trimmed(o.poolStats) && Trimmed(o.jsonType)
    && Trimmed(o.removeJSONBFromSchema)
  }

  lemma TrimInsertTrims(o: Insert)
    ensures TrimmedInsert(TrimInsert(o))
    ensures TrimmedInsert(o) ==> TrimInsert(o) == o
  {
    hide TrimSpace;
  }

  lemma DefaultInsertSettles(o: Insert, d: Insert)
    requires TrimmedInsert(o) && TrimmedInsert(d) && d.txCBOR != ""
    ensures var n := DefaultInsert(o, d); TrimmedInsert(n) && DefaultInsert(n, d) == n
  {
    hide TrimSpace;
  }

  /** What `TrimInputs` leaves nothing to do on. */
  predicate TrimmedInputs(s: Spec) {
    && Trimmed(s.networkName) && Trimmed(s.networkArtifactHash) && Trimmed(s.image) && Trimmed(s.nodeToNode.host)
    && TrimmedDatabase(s.database) && Trimmed(s.storage.ledgerBackend) && TrimmedInsert(s.insert)
    && TrimStrings(s.ipfsGateways) == s.ipfsGateways
  }

  predicate TrimmedDatabase(d: Database) {
    && Trimmed(d.host) && Trimmed(d.name) && Trimmed(d.user) && Trimmed(d.passwordSecretName)
    && Trimmed(d.passwordSecretKey) && Trimmed(d.sslMode)
  }

  lemma TrimInputsTrims(s: Spec)
    ensures TrimmedInputs(TrimInputs(s))
    ensures TrimmedInputs(s) ==> TrimInputs(s) == s
  {
    hide TrimSpace;
    TrimStringsIdempotent(s.ipfsGateways);
    TrimInsertTrims(s.insert);
  }

  predicate CompletePaths(p: Paths) {
    && Trimmed(p.configFile) && Trimmed(p.topologyFile) && Trimmed(p.nodeConfig)
    && Trimmed(p.socketPath) && Trimmed(p.stateDir) && Trimmed(p.pgPassFile)
    && p.configFile != "" && p.topologyFile != "" && p.nodeConfig != ""
    && p.socketPath != "" && p.stateDir != "" && p.pgPassFile != ""
  }

  lemma DefaultPathsSettle(p: Paths, d: Paths)
    requires CompletePaths(d)
    ensures CompletePaths(DefaultPaths(p, d))
    ensures CompletePaths(p) ==> DefaultPaths(p, d) == p
  {
    hide TrimSpace;
  }

  predicate Present(s: string) {
    s != "" && !IsSpace(s[0])
  }

  lemma DefaultStorageSettles(o: Storage, d: Storage)
    requires Trimmed(o.ledgerBackend) && Trimmed(d.ledgerBackend) && Present(d.stateStorageSize)
    ensures var n := DefaultStorage(o, d); Trimmed(n.ledgerBackend) && DefaultStorage(n, d) == n
  {
    hide TrimSpace;
  }

  lemma DefaultDatabaseSettles(o: Database, d: Database)
    requires TrimmedDatabase(o) && TrimmedDatabase(d)
    ensures var n := DefaultDatabase(o, d); TrimmedDatabase(n) && DefaultDatabase(n, d) == n
  {
    hide TrimSpace;
  }

  predicate CompleteDefaults(d: Defaults) {
    && TrimmedDatabase(d.database) && Trimmed(d.storage.ledgerBackend) && Present(d.storage.stateStorageSize)
    && TrimmedInsert(d.insert) && d.insert.txCBOR != "" && CompletePaths(d.paths)
  }

  lemma DefaultsAreComplete()
    ensures CompleteDefaults(DEFAULTS)
  {
    var d := DEFAULTS;
    assert TrimmedDatabase(d.database);
    assert CompletePaths(d.paths);
    assert Present(d.storage.stateStorageSize);
  }

  lemma DefaultsSettle(s: Spec, d: Defaults)
    requires TrimmedInputs(s) && CompleteDefaults(d)
    ensures var n := ApplyDefaults(s, d); TrimmedInputs(n) && ApplyDefaults(n, d) == n
  {
    hide TrimSpace;
    DefaultDatabaseSettles(s.database, d.database);
    DefaultStorageSettles(s.storage, d.storage);
    DefaultInsertSettles(s.insert, d.insert);
    DefaultPathsSettle(s.paths, d.paths);
    DefaultPathsSettle(DefaultPaths(s.paths, d.paths), d.paths);
  }

  /** A normal form is its own normal form: a plan rebuilt from a plan's spec is that plan. */
  lemma NormalIdempotent(s: Spec)
    ensures Normal(Normal(s)) == Normal(s)
  {
    hide TrimSpace;
    TrimInputsTrims(s);
    DefaultsAreComplete();
    DefaultsSettle(TrimInputs(s), DEFAULTS);
    TrimInputsTrims(Normal(s));
  }

  // -------------------------------------------------------------------------------------------
  // Whitespace around the trimmed fields does not matter

  /** `padded` is `s` with whitespace around it. */
  ghost predicate Padded(s: string, padded: string) {
    exists left, right :: Blank(left) && Blank(right) && padded == left + s + right
  }

  lemma PaddedTrimsAlike(s: string, padded: string)
    requires Padded(s, padded)
    ensures TrimSpace(padded) == TrimSpace(s)
  {
    var left, right :| Blank(left) && Blank(right) && padded == left + s + right;
    TrimAbsorbsPadding(left, s, right);
  }

  ghost predicate PaddedDatabase(a: Database, b: Database) {
    && a.port == b.port && Padded(a.host, b.host) && Padded(a.name, b.name) && Padded(a.user, b.user)
    && Padded(a.passwordSecretName, b.passwordSecretName) && Padded(a.passwordSecretKey, b.passwordSecretKey)
    && Padded(a.sslMode, b.sslMode)
  }

  lemma PaddedDatabaseTrimsAlike(a: Database, b: Database)
    requires PaddedDatabase(a, b)
    ensures TrimDatabase(b) == TrimDatabase(a)
  {
    hide TrimSpace;
    PaddedTrimsAlike(a.host, b.host);
    PaddedTrimsAlike(a.name, b.name);
    PaddedTrimsAlike(a.user, b.user);
    PaddedTrimsAlike(a.passwordSecretName, b.passwordSecretName);
    PaddedTrimsAlike(a.passwordSecretKey, b.passwordSecretKey);
    PaddedTrimsAlike(a.sslMode, b.sslMode);
  }

  ghost predicate PaddedInsert(a: Insert, b: Insert) {
    && b.txOut.(mode := a.txOut.mode) == a.txOut && a.shelley == b.shelley && a.multiAsset == b.multiAsset
    && a.metadata == b.metadata && a.plutus == b.plutus
    && Padded(a.txCBOR, b.txCBOR) && Padded(a.txOut.mode, b.txOut.mode) && Padded(a.ledger, b.ledger)
    && Padded(a.governance, b.governance) && Padded(a.offchainPoolData, b.offchainPoolData)
    && Padded(a.offchainVoteData, b.offchainVoteData) && Padded(a.poolStats, b.poolStats)
    && Padded(a.jsonType, b.jsonType) && Padded(a.removeJSONBFromSchema, b.removeJSONBFromSchema)
  }

  lemma PaddedInsertTrimsAlike(a: Insert, b: Insert)
    requires PaddedInsert(a, b)
    ensures TrimInsert(b) == TrimInsert(a)
  {
    hide TrimSpace;
    PaddedTrimsAlike(a.txCBOR, b.txCBOR);
    PaddedTrimsAlike(a.txOut.mode, b.txOut.mode);
    PaddedTrimsAlike(a.ledger, b.ledger);
    PaddedTrimsAlike(a.governance, b.governance);
    PaddedTrimsAlike(a.offchainPoolData, b.offchainPoolData);
    PaddedTrimsAlike(a.offchainVoteData, b.offchainVoteData);
    PaddedTrimsAlike(a.poolStats, b.poolStats);
    PaddedTrimsAlike(a.jsonType, b.jsonType);
    PaddedTrimsAlike(a.removeJSONBFromSchema, b.removeJSONBFromSchema);
  }

  ghost predicate PaddedPaths(a: Paths, b: Paths) {
    && Padded(a.configFile, b.configFile) && Padded(a.topologyFile, b.topologyFile)
    && Padded(a.nodeConfig, b.nodeConfig) && Padded(a.socketPath, b.socketPath)
    && Padded(a.stateDir, b.stateDir) && Padded(a.pgPassFile, b.pgPassFile)
  }

  lemma PaddedPathsDefaultAlike(a: Paths, b: Paths, d: Paths)
    requires PaddedPaths(a, b)
    ensures DefaultPaths(b, d) == DefaultPaths(a, d)
  {
    hide TrimSpace;
    PaddedTrimsAlike(a.configFile, b.configFile);
    PaddedTrimsAlike(a.topologyFile, b.topologyFile);
    PaddedTrimsAlike(a.nodeConfig, b.nodeConfig);
    PaddedTrimsAlike(a.socketPath, b.socketPath);
    PaddedTrimsAlike(a.stateDir, b.stateDir);
    PaddedTrimsAlike(a.pgPassFile, b.pgPassFile);
  }

  ghost predicate PaddedEach(a: seq<string>, b: seq<string>) {
    |a| == |b| && forall i :: 0 <= i < |a| ==> Padded(a[i], b[i])
  }

  lemma {:induction false} PaddedEachTrimAlike(a: seq<string>, b: seq<string>)
    requires PaddedEach(a, b)
    ensures TrimStrings(b) == TrimStrings(a)
  {
    hide TrimSpace;
    if a != [] {
      PaddedTrimsAlike(a[0], b[0]);
      PaddedEachTrimAlike(a[1..], b[1..]);
    }
  }

  /** `b` is `a` with whitespace put around any of the fields `normalizeSpec` trims. */
  ghost predicate PaddedSpec(a: Spec, b: Spec) {
    && Padded(a.networkName, b.networkName) && Padded(a.networkArtifactHash, b.networkArtifactHash)
    && Padded(a.image, b.image) && Padded(a.nodeToNode.host, b.nodeToNode.host) && a.nodeToNode.port == b.nodeToNode.port
    && PaddedDatabase(a.database, b.database) && PaddedInsert(a.insert, b.insert)
    && Padded(a.storage.ledgerBackend, b.storage.ledgerBackend)
    && b.storage.(ledgerBackend := a.storage.ledgerBackend) == a.storage
    && a.requiresNetworkMagic == b.requiresNetworkMagic && a.runtime == b.runtime
    && PaddedEach(a.ipfsGateways, b.ipfsGateways) && PaddedPaths(a.paths, b.paths)
  }

  lemma PaddingIsIgnored(a: Spec, b: Spec)
    requires PaddedSpec(a, b)
    ensures Normal(b) == Normal(a)
  {
    hide TrimSpace;
    PaddedTrimsAlike(a.networkName, b.networkName);
    PaddedTrimsAlike(a.networkArtifactHash, b.networkArtifactHash);
    PaddedTrimsAlike(a.image, b.image);
    PaddedTrimsAlike(a.nodeToNode.host, b.nodeToNode.host);
    PaddedTrimsAlike(a.storage.ledgerBackend, b.storage.ledgerBackend);
    PaddedDatabaseTrimsAlike(a.database, b.database);
    PaddedInsertTrimsAlike(a.insert, b.insert);
    PaddedEachTrimAlike(a.ipfsGateways, b.ipfsGateways);
    PaddedPathsDefaultAlike(a.paths, b.paths, DEFAULTS.paths);
  }
}
