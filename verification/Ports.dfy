/** Ports of the primary Pod as two components see them: the CLI's resolution and conflict check
    (cli/internal/devconfig/runtime_support.go) and the operator's port ownership
    (internal/cardano/primarypod), with the db-sync sidecar check built on the latter. */
module Ports {
  import opened Fingerprints

  datatype Profile = Preview | Preprod | Mainnet | OtherProfile

  datatype NetworkMode = Local | Public(profile: Option<Profile>) | OtherMode

  /** An explicit chain API component. */
  datatype Component = Component(enabled: bool, image: string, port: int)

  datatype Network = Network(mode: NetworkMode, nodePort: int, ogmios: Option<Component>, kupo: Option<Component>)

  const DEFAULT_NODE_PORT := 3001
  const DEFAULT_OGMIOS_PORT := 1337
  const DEFAULT_KUPO_PORT := 1442
  const SERVE_PORT := 8090

  predicate InRange(port: int) {
    1 <= port <= 65535
  }

  // -------------------------------------------------------------------------------------------
  // The CLI

  datatype Settings = Settings(enabled: bool, port: int)

  datatype ChainAPI = ChainAPI(ogmios: Settings, kupo: Settings)

  datatype CLIError = NodePortRange | ComponentPortRange | KupoNeedsOgmios | PublicKupo | ImageRejected
                    | StorageRejected | LocalRejected | PortConflict

  /** `resolveOgmiosRuntimeSupport` and the port part of `resolveKupoRuntimeSupport`. */
  function ResolveComponent(given: Option<Component>, defaultPort: int): Result<Settings, CLIError> {
    if given.None? then Ok(Settings(true, defaultPort))
    else if !given.value.enabled then Ok(Settings(false, defaultPort))
    else if !InRange(given.value.port) then Err(ComponentPortRange)
    else Ok(Settings(true, given.value.port))
  }

  /** A component as given, or its default where nothing is said of it. */
  predicate SettingsSay(s: Settings, given: Option<Component>, enabled: bool, port: int) {
    if given.None? then s.enabled == enabled && s.port == port
    else s.enabled == given.value.enabled && (s.enabled ==> s.port == given.value.port && 1 <= s.port <= 65535)
  }

  /** An explicit component that is on and has no usable port. */
  predicate OutOfRange(given: Option<Component>) {
    given.Some? && given.value.enabled && (given.value.port < 1 || given.value.port > 65535)
  }

  /** `resolveChainAPIRuntimeSupport`; whether the images pass their own checks is an input. */
  method ResolveChainAPI(n: Network, imagesPass: bool) returns (r: Result<ChainAPI, CLIError>)
    ensures r.Ok? ==> imagesPass && Resolves(n, r.value)
    ensures r.Err? && imagesPass ==> forall c :: !Resolves(n, c)
    ensures r.Ok? ==> SettingsSay(r.value.ogmios, n.ogmios, true, 1337)
    ensures r.Ok? ==> SettingsSay(r.value.kupo, n.kupo, r.value.ogmios.enabled && !n.mode.Public?, 1442)
    ensures r.Ok? ==> (r.value.kupo.enabled ==> r.value.ogmios.enabled)
    ensures r.Err? && imagesPass ==>
              || OutOfRange(n.ogmios) || OutOfRange(n.kupo)
              || (n.kupo.Some? && n.kupo.value.enabled && n.ogmios.Some? && !n.ogmios.value.enabled)
  {
    var ogmios := ResolveComponent(n.ogmios, DEFAULT_OGMIOS_PORT);
    if ogmios.Err? {
      return Err(ogmios.error);
    }
    var resolved := ResolveComponent(n.kupo, DEFAULT_KUPO_PORT);
    if resolved.Err? {
      return Err(resolved.error);
    }
    var kupo := resolved.value;
    if n.kupo.None? && !ogmios.value.enabled {
      kupo := kupo.(enabled := false);
    }
    if n.mode.Public? && n.kupo.None? {
      kupo := kupo.(enabled := false);
    }
    if kupo.enabled && !ogmios.value.enabled {
      return Err(KupoNeedsOgmios);
    }
    if !imagesPass {
      return Err(ImageRejected);
    }
    return Ok(ChainAPI(ogmios.value, kupo));
  }

  /** What the resolution may return. */
  predicate Resolves(n: Network, c: ChainAPI) {
    && ResolveComponent(n.ogmios, DEFAULT_OGMIOS_PORT) == Ok(c.ogmios)
    && ResolveComponent(n.kupo, DEFAULT_KUPO_PORT).Ok?
    && c.kupo.port == ResolveComponent(n.kupo, DEFAULT_KUPO_PORT).value.port
    && (n.kupo.Some? ==> c.kupo.enabled == n.kupo.value.enabled)
    && (n.kupo.None? ==> c.kupo.enabled == (c.ogmios.enabled && !n.mode.Public?))
    && (c.kupo.enabled ==> c.ogmios.enabled)
  }

  /** The ports in use, in the order of the check. */
  function UsedPorts(nodePort: int, c: ChainAPI): seq<int> {
    [nodePort] + (if c.ogmios.enabled then [c.ogmios.port] else []) + if c.kupo.enabled then [c.kupo.port] else []
  }

  predicate AllDifferent(ports: seq<int>) {
    forall i, j :: 0 <= i < j < |ports| ==> ports[i] != ports[j]
  }

  lemma DifferentPorts(nodePort: int, c: ChainAPI)
    ensures AllDifferent(UsedPorts(nodePort, c)) <==>
              && (c.ogmios.enabled ==> c.ogmios.port != nodePort) && (c.kupo.enabled ==> c.kupo.port != nodePort)
              && (c.ogmios.enabled && c.kupo.enabled ==> c.ogmios.port != c.kupo.port)
  {
    var used := UsedPorts(nodePort, c);
    assert used[0] == nodePort;
    assert c.ogmios.enabled ==> used[1] == c.ogmios.port;
    assert c.kupo.enabled ==> used[|used| - 1] == c.kupo.port;
  }

  /** `validateRuntimePortConflicts`. */
  method ValidatePortConflicts(nodePort: int, c: ChainAPI) returns (ok: bool)
    ensures ok <==> AllDifferent(UsedPorts(nodePort, c))
    ensures ok <==>
              && (c.ogmios.enabled ==> c.ogmios.port != nodePort) && (c.kupo.enabled ==> c.kupo.port != nodePort)
              && (c.ogmios.enabled && c.kupo.enabled ==> c.ogmios.port != c.kupo.port)
  {
    DifferentPorts(nodePort, c);
    var seen: map<int, string> := map[nodePort := "spec.network.node.port"];
    var components := [("ogmios", c.ogmios), ("kupo", c.kupo)];
    ghost var used := [nodePort];
    for i := 0 to |components|
      invariant forall p :: p in seen <==> p in used
      invariant AllDifferent(used)
      invariant used == UsedPorts(nodePort, ChainAPI(if i > 0 then c.ogmios else Settings(false, 0),
                                                     if i > 1 then c.kupo else Settings(false, 0)))
    {
      var (name, settings) := components[i];
      if !settings.enabled {
        continue;
      }
      if settings.port in seen {
        ghost var k :| 0 <= k < |used| && used[k] == settings.port;
        assert UsedPorts(nodePort, c)[k] == UsedPorts(nodePort, c)[|used|];
        return false;
      }
      seen := seen[settings.port := "spec.network.chainAPI." + name + ".port"];
      used := used + [settings.port];
    }
    return true;
  }

  /** The verdicts of the checks that do not look at ports: the node image, the mainnet storage size, the
      local era and topology, and the component images. */
  datatype OtherChecks = OtherChecks(nodeImage: bool, storage: bool, local: bool, images: bool) {
    predicate Pass(n: Network) {
      nodeImage && storage && images && (n.mode.Local? ==> local)
    }
  }

  /** `validateRuntimeSupport`. */
  method ValidateRuntimeSupport(n: Network, others: OtherChecks) returns (r: Result<ChainAPI, CLIError>)
    ensures r.Ok? ==> others.Pass(n) && Accepts(n, r.value)
    ensures r.Err? && others.Pass(n) ==> forall c :: !Accepts(n, c)
    ensures r.Ok? ==>
              && others.nodeImage && others.storage && others.images && (n.mode.Local? ==> others.local)
              && 1 <= n.nodePort <= 65535 && !(n.mode.Public? && n.kupo.Some? && n.kupo.value.enabled)
              && SettingsSay(r.value.ogmios, n.ogmios, true, 1337)
              && SettingsSay(r.value.kupo, n.kupo, r.value.ogmios.enabled && !n.mode.Public?, 1442)
    ensures others.nodeImage && (n.nodePort < 1 || n.nodePort > 65535) ==> r == Err(NodePortRange)
  {
    if !others.nodeImage {
      return Err(ImageRejected);
    }
    if !InRange(n.nodePort) {
      return Err(NodePortRange);
    }
    if !others.storage {
      return Err(StorageRejected);
    }
    if n.mode.Local? && !others.local {
      return Err(LocalRejected);
    }
    if n.mode.Public? && n.kupo.Some? && n.kupo.value.enabled {
      return Err(PublicKupo);
    }
    r := ResolveChainAPI(n, others.images);
    if r.Ok? {
      var ok := ValidatePortConflicts(n.nodePort, r.value);
      if !ok {
        assert forall c :: Resolves(n, c) ==> c == r.value;
        return Err(PortConflict);
      }
    }
  }

  /** An accepted spec, with the settings the CLI resolved. */
  predicate Accepts(n: Network, c: ChainAPI) {
    && InRange(n.nodePort) && Resolves(n, c) && AllDifferent(UsedPorts(n.nodePort, c))
    && (n.mode.Public? && n.kupo.Some? ==> !n.kupo.value.enabled)
  }

  // -------------------------------------------------------------------------------------------
  // The primary Pod

  datatype Owner = NodeToNode | Serve | Ogmios | Kupo

  predicate OgmiosEnabled(n: Network) {
    n.ogmios.None? || n.ogmios.value.enabled
  }

  predicate KupoEnabled(n: Network) {
    if n.kupo.None? then OgmiosEnabled(n) else n.kupo.value.enabled
  }

  function EffectivePort(given: Option<Component>, fallback: int): int {
    if given.None? || !given.value.enabled || given.value.port == 0 then fallback else given.value.port
  }

  /** The ports the Pod's components listen on. */
  predicate Listens(n: Network, owner: Owner, port: int) {
    var ogmios := n.ogmios.None? || n.ogmios.value.enabled;
    match owner
    case NodeToNode => port == if n.nodePort == 0 then 3001 else n.nodePort
    case Serve => port == 8090
    case Ogmios => ogmios && port == if n.ogmios.None? || n.ogmios.value.port == 0 then 1337 else n.ogmios.value.port
    case Kupo =>
      && (if n.kupo.None? then ogmios else n.kupo.value.enabled)
      && port == if n.kupo.None? || n.kupo.value.port == 0 then 1442 else n.kupo.value.port
  }

  /** Of two components on one port the later one is named. */
  predicate Later(a: Owner, b: Owner) {
    match b
    case NodeToNode => a != NodeToNode
    case Serve => a == Ogmios || a == Kupo
    case Ogmios => a == Kupo
    case Kupo => false
  }

  /** The owners, later writes winning. */
  function Owners(n: Network): map<int, Owner> {
    map[(if n.nodePort == 0 then DEFAULT_NODE_PORT else n.nodePort) := NodeToNode, SERVE_PORT := Serve]
    + (if OgmiosEnabled(n) then map[EffectivePort(n.ogmios, DEFAULT_OGMIOS_PORT) := Ogmios] else map[])
    + if KupoEnabled(n) then map[EffectivePort(n.kupo, DEFAULT_KUPO_PORT) := Kupo] else map[]
  }

  /** `PortOwners`. */
  method PortOwners(n: Network) returns (ports: map<int, Owner>)
    ensures ports == Owners(n)
    ensures forall p :: p in ports <==> exists owner :: Listens(n, owner, p)
    ensures forall p :: p in ports ==>
              Listens(n, ports[p], p) && forall owner :: Listens(n, owner, p) ==> !Later(owner, ports[p])
  {
    var nodePort := n.nodePort;
    if nodePort == 0 {
      nodePort := DEFAULT_NODE_PORT;
    }
    ports := map[nodePort := NodeToNode, SERVE_PORT := Serve];
    if OgmiosEnabled(n) {
      ports := ports[EffectivePort(n.ogmios, DEFAULT_OGMIOS_PORT) := Ogmios];
    }
    if KupoEnabled(n) {
      ports := ports[EffectivePort(n.kupo, DEFAULT_KUPO_PORT) := Kupo];
    }
    forall p
      ensures p in ports <==> exists owner :: Listens(n, owner, p)
      ensures p in ports ==> Listens(n, ports[p], p) && forall owner :: Listens(n, owner, p) ==> !Later(owner, ports[p])
    {
      OwnersListen(n, p);
    }
  }

  // -------------------------------------------------------------------------------------------
  // Agreement

  /** Every component the CLI resolved owns its own port in the Pod, and no other port is owned. */
  predicate OwnedAsResolved(n: Network, c: ChainAPI) {
    var owners := Owners(n);
    && owners.Keys == {n.nodePort, SERVE_PORT} + (if c.ogmios.enabled then {c.ogmios.port} else {})
                                               + (if c.kupo.enabled then {c.kupo.port} else {})
    && owners[n.nodePort] == NodeToNode && owners[SERVE_PORT] == Serve
    && (c.ogmios.enabled ==> owners[c.ogmios.port] == Ogmios)
    && (c.kupo.enabled ==> owners[c.kupo.port] == Kupo)
  }

  /** The two implementations agree on an accepted local spec exactly when none of its ports is the serve
      port, which the CLI's conflict check does not know. */
  lemma LocalAgreementIff(n: Network, c: ChainAPI)
    requires Accepts(n, c) && n.mode.Local?
    ensures OwnedAsResolved(n, c) <==> SERVE_PORT !in UsedPorts(n.nodePort, c)
  {
    AgreeOnComponents(n, c);
    var used := UsedPorts(n.nodePort, c);
    assert used[0] == n.nodePort;
    assert c.ogmios.enabled ==> used[1] == c.ogmios.port;
    assert c.kupo.enabled ==> used[2] == c.kupo.port;
  }

  /** Such a spec is accepted: a local network whose node port is 8090. The Pod's owner map gives the port to
      the serve component alone. */
  lemma ServePortIsNotChecked()
    ensures var n := Network(Local, SERVE_PORT, None, None);
            var c := ChainAPI(Settings(true, DEFAULT_OGMIOS_PORT), Settings(true, DEFAULT_KUPO_PORT));
            Accepts(n, c) && !OwnedAsResolved(n, c) && Owners(n)[n.nodePort] == Serve
  {
    var n := Network(Local, SERVE_PORT, None, None);
    var c := ChainAPI(Settings(true, DEFAULT_OGMIOS_PORT), Settings(true, DEFAULT_KUPO_PORT));
    assert UsedPorts(n.nodePort, c)[0] == SERVE_PORT;
    LocalAgreementIff(n, c);
  }

  /** Defaulting agrees: ports always, enablement of Ogmios always, of Kupo but for public networks that
      do not mention it. */
  lemma AgreeOnComponents(n: Network, c: ChainAPI)
    requires Accepts(n, c)
    ensures c.ogmios.enabled == OgmiosEnabled(n)
    ensures c.ogmios.enabled ==> c.ogmios.port == EffectivePort(n.ogmios, DEFAULT_OGMIOS_PORT)
    ensures c.kupo.enabled ==> KupoEnabled(n) && c.kupo.port == EffectivePort(n.kupo, DEFAULT_KUPO_PORT)
    ensures KupoEnabled(n) && !c.kupo.enabled <==> n.mode.Public? && n.kupo.None? && OgmiosEnabled(n)
  {
  }

  /** On every accepted spec, public ones included, the owned ports include all ports in use. */
  lemma OwnersCoverUsedPorts(n: Network, c: ChainAPI)
    requires Accepts(n, c)
    ensures forall p :: p in UsedPorts(n.nodePort, c) ==> p in Owners(n)
    ensures SERVE_PORT in Owners(n)
  {
    AgreeOnComponents(n, c);
  }

  // -------------------------------------------------------------------------------------------
  // The db-sync sidecar

  datatype SidecarError = PublicSpecMissing | MainnetUnsupported | ProfileUnsupported | ModeUnsupported
                        | MetricsPortConflict(owner: Owner)

  function SidecarMetricsPort(configured: int): int {
    if configured == 0 then 8080 else configured
  }

  /** `ValidatePrimarySidecarNetwork`. */
  function ValidateSidecar(n: Network, metricsPort: int): (err: Option<SidecarError>)
  {
    match n.mode
    case OtherMode => Some(ModeUnsupported)
    case Public(None) => Some(PublicSpecMissing)
    case Public(Some(Mainnet)) => Some(MainnetUnsupported)
    case Public(Some(OtherProfile)) => Some(ProfileUnsupported)
    case _ =>
      var port := SidecarMetricsPort(metricsPort);
      if port in Owners(n) then Some(MetricsPortConflict(Owners(n)[port])) else None
  }

  /** A sidecar is accepted beside a local network or one of the two public test networks, on a port that no component
      listens on. */
  lemma SidecarIsAcceptedIff(n: Network, metricsPort: int)
    ensures var port := if metricsPort == 0 then 8080 else metricsPort;
            ValidateSidecar(n, metricsPort) == None <==>
              && (n.mode == Local || n.mode == Public(Some(Preview)) || n.mode == Public(Some(Preprod)))
              && forall owner :: !Listens(n, owner, port)
    ensures n.mode == Public(Some(Mainnet)) ==> ValidateSidecar(n, metricsPort) == Some(MainnetUnsupported)
    ensures n.mode == Public(None) ==> ValidateSidecar(n, metricsPort) == Some(PublicSpecMissing)
    ensures n.mode == OtherMode ==> ValidateSidecar(n, metricsPort) == Some(ModeUnsupported)
  {
    var port := if metricsPort == 0 then 8080 else metricsPort;
    OwnersListen(n, port);
  }

  lemma OwnersListen(n: Network, p: int)
    ensures p in Owners(n) <==> exists owner :: Listens(n, owner, p)
    ensures p in Owners(n) ==>
              Listens(n, Owners(n)[p], p) && forall owner :: Listens(n, owner, p) ==> !Later(owner, Owners(n)[p])
  {
    var owners := Owners(n);
    if p in owners {
      assert Listens(n, owners[p], p);
    }
    if owner :| Listens(n, owner, p) {
      match owner
      case NodeToNode =>
      case Serve =>
      case Ogmios =>
      case Kupo =>
    }
  }

  /** A sidecar accepted beside an accepted local network that leaves the serve port alone: all ports of
      the Pod are pairwise different. */
  lemma SidecarPortsAreDistinct(n: Network, c: ChainAPI, metricsPort: int)
    requires Accepts(n, c) && n.mode.Local? && SERVE_PORT !in UsedPorts(n.nodePort, c)
    requires ValidateSidecar(n, metricsPort) == None
    ensures AllDifferent(UsedPorts(n.nodePort, c) + [SERVE_PORT, SidecarMetricsPort(metricsPort)])
  {
    OwnersCoverUsedPorts(n, c);
    var used := UsedPorts(n.nodePort, c);
    assert forall i :: 0 <= i < |used| ==> used[i] in used;
  }

  /** The sidecar's port is free on public networks too: no container of the Pod uses it. */
  lemma SidecarPortIsFree(n: Network, c: ChainAPI, metricsPort: int)
    requires Accepts(n, c) && ValidateSidecar(n, metricsPort) == None
    ensures SidecarMetricsPort(metricsPort) !in UsedPorts(n.nodePort, c) && SidecarMetricsPort(metricsPort) != SERVE_PORT
  {
    OwnersCoverUsedPorts(n, c);
  }
}
