/** The localnet planner (internal/cardano/localnet): normalization, the create-env invocation and the
    manifest inputs that are fingerprinted. */
module Localnet {
  import opened Fingerprints
  import opened Text
  import opened ContainerPaths
  import opened CommandLine
  import opened SlotLength

  // -------------------------------------------------------------------------------------------
  // The spec

  /** `slotLength` is in nanoseconds. */
  datatype Spec = Spec(networkMagic: int, poolCount: int, slotLength: int, epochLength: int, stateDir: string,
                       envDir: string, binary: string, version: string)

  function OrInt(value: int, fallback: int): int {
    if value == 0 then fallback else value
  }

  function OrString(value: string, fallback: string): string {
    if value == "" then fallback else value
  }

  /** Zero values replaced by the defaults; the env dir waits for the state dir. */
  function Defaulted(s: Spec): Spec {
    Spec(OrInt(s.networkMagic, 42), OrInt(s.poolCount, 1), OrInt(s.slotLength, 100_000_000), OrInt(s.epochLength, 500),
         OrString(s.stateDir, "/state"), s.envDir, OrString(s.binary, "cardano-testnet"), s.version)
  }

  /** The env dir before normalization: given, or under the normalized state dir. */
  function EnvDirOf(s: Spec, stateDir: string): string
    requires IsRooted(stateDir)
  {
    if s.envDir == "" then Join(stateDir, "env") else s.envDir
  }

  /** Both paths normalized, or the first that is not absolute. */
  function WithPaths(s: Spec): Result<Spec, Problem> {
    var stateDir := NormalPath(s.stateDir);
    if stateDir.None? then Err(StateDirNotAbsolute)
    else
      var envDir := NormalPath(EnvDirOf(s, stateDir.value));
      if envDir.None? then Err(EnvDirNotAbsolute) else Ok(s.(stateDir := stateDir.value, envDir := envDir.value))
  }


  /** `validateSpec`. */
  predicate Valid(s: Spec) {
    s.networkMagic >= 0 && s.poolCount >= 1 && s.epochLength >= 1 && s.slotLength > 0 && s.binary != ""
  }

  datatype Problem = StateDirNotAbsolute | EnvDirNotAbsolute | InvalidSpec

  /** The accepted normal form of a spec. */
  function NormalForm(s: Spec): Result<Spec, Problem> {
    var paths := WithPaths(Defaulted(s));
    if paths.Err? then paths
    else
      var normal := paths.value.(binary := TrimSpace(paths.value.binary), version := TrimSpace(paths.value.version));
      if Valid(normal) then Ok(normal) else Err(InvalidSpec)
  }

  /** `normalizeContainerPath`. */
  method NormalizeContainerPath(value: string, problem: Problem) returns (r: Result<string, Problem>)
    ensures r == if NormalPath(value).Some? then Ok(NormalPath(value).value) else Err(problem)
  {
    var trimmed := TrimSpace(value);
    if trimmed == "" || trimmed[0] != '/' {
      return Err(problem);
    }
    return Ok(Clean(trimmed));
  }

  method ApplyDefaults(given: Spec) returns (s: Spec)
    ensures s == Defaulted(given)
  {
    s := given;
    if s.networkMagic == 0 {
      s := s.(networkMagic := 42);
    }
    if s.poolCount == 0 {
      s := s.(poolCount := 1);
    }
    if s.slotLength == 0 {
      s := s.(slotLength := 100_000_000);
    }
    if s.epochLength == 0 {
      s := s.(epochLength := 500);
    }
    if s.stateDir == "" {
      s := s.(stateDir := "/state");
    }
    if s.binary == "" {
      s := s.(binary := "cardano-testnet");
    }
  }

  /** `normalizeSpec`, field by field. */
  method NormalizeSpec(given: Spec) returns (r: Result<Spec, Problem>)
    ensures r == NormalForm(given)
  {
    hide Clean, Join, TrimSpace, Defaulted;
    var s := ApplyDefaults(given);
    var stateDir := NormalizeContainerPath(s.stateDir, StateDirNotAbsolute);
    if stateDir.Err? {
      return Err(stateDir.error);
    }
    s := s.(stateDir := stateDir.value);
    if s.envDir == "" {
      s := s.(envDir := Join(s.stateDir, "env"));
    }
    var envDir := NormalizeContainerPath(s.envDir, EnvDirNotAbsolute);
    if envDir.Err? {
      return Err(envDir.error);
    }
    s := s.(envDir := envDir.value);
    s := s.(binary := TrimSpace(s.binary), version := TrimSpace(s.version));
    if !Valid(s) {
      return Err(InvalidSpec);
    }
    return Ok(s);
  }

  // -------------------------------------------------------------------------------------------
  // What an accepted normal form guarantees

  /** A rooted path of proper elements, in the one spelling `path.Clean` leaves. */
  predicate CleanPath(dir: string) {
    IsRooted(dir) && AllProper(Elements(dir)) && dir == Rooted(Elements(dir))
  }

  lemma NormalPathIsClean(value: string)
    requires NormalPath(value).Some?
    ensures CleanPath(NormalPath(value).value)
    ensures Elements(NormalPath(value).value) == Elements(TrimSpace(value))
  {
    CleanIdempotent(TrimSpace(value));
  }

  /** An accepted spec has a positive magic, positive counts and duration, two clean paths,
      and a trimmed binary and version. */
  lemma NormalFormGuarantees(given: Spec)
    requires NormalForm(given).Ok?
    ensures var s := NormalForm(given).value;
            && Valid(s) && s.networkMagic > 0 && CleanPath(s.stateDir) && CleanPath(s.envDir)
            && Trimmed(s.binary) && Trimmed(s.version)
  {
    hide NormalPath, TrimSpace, CleanPath, Join;
    var s := Defaulted(given);
    NormalPathIsClean(s.stateDir);
    NormalPathIsClean(EnvDirOf(s, NormalPath(s.stateDir).value));
  }

  lemma JoinedEnvSettles(dir: string)
    requires IsRooted(dir)
    ensures NormalPath(Join(dir, "env")) == Some(Join(dir, "env"))
  {
    hide TrimSpace, Elements;
    var joined := Join(dir, "env");
    CleanIdempotent(dir + "/" + "env");
    JoinAppends(dir, "env");
    ElementsAreProper(joined);
    SlashedEnd(Elements(joined));
    assert joined == Slashed(Elements(joined));
    assert Trimmed(joined);
  }

  /** What is accepted, on the given fields: zero and the empty string stand for defaults, a blank binary
      does not. */
  lemma AcceptedIff(given: Spec)
    ensures NormalForm(given).Ok? <==>
              && IsRooted(TrimSpace(OrString(given.stateDir, "/state")))
              && (given.envDir == "" || IsRooted(TrimSpace(given.envDir)))
              && given.networkMagic >= 0 && given.poolCount >= 0 && given.epochLength >= 0 && given.slotLength >= 0
              && (given.binary == "" || TrimSpace(given.binary) != "")
  {
    hide TrimSpace, Clean, Join;
    var stateDir := NormalPath(OrString(given.stateDir, "/state"));
    if stateDir.Some? {
      JoinedEnvSettles(stateDir.value);
    }
    assert Trimmed("cardano-testnet");
  }

  /** The normal form is the authoritative one, in that it is its own normal form, exactly if neither given
      path leaves whitespace at the end of its last element; the default env dir never does. */
  lemma RenormalizingChangesNothingIff(given: Spec)
    requires NormalForm(given).Ok?
    ensures NormalForm(NormalForm(given).value) == NormalForm(given) <==>
              && LastElementIsTrimmed(OrString(given.stateDir, "/state"))
              && (given.envDir == "" || LastElementIsTrimmed(given.envDir))
  {
    hide NormalPath, TrimSpace, CleanPath, Join, LastElementIsTrimmed, Rooted, Elements;
    NormalFormGuarantees(given);
    AcceptedIsPlannable(given);
    var s, n := Defaulted(given), NormalForm(given).value;
    NormalFormIsPathwise(n);
    NormalPathSettlesIff(s.stateDir);
    if given.envDir == "" {
      JoinedEnvSettles(n.stateDir);
    } else {
      NormalPathSettlesIff(given.envDir);
    }
  }

  lemma NormalFormIsPathwise(n: Spec)
    requires Valid(n) && n.networkMagic > 0 && IsRooted(n.stateDir) && IsRooted(n.envDir)
    requires Trimmed(n.binary) && Trimmed(n.version)
    ensures NormalForm(n) == Ok(n) <==>
              NormalPath(n.stateDir) == Some(n.stateDir) && NormalPath(n.envDir) == Some(n.envDir)
  {
    assert Defaulted(n) == n;
  }

  // -------------------------------------------------------------------------------------------
  // Manifest inputs, invocation and plan

  /** `ManifestInputs`, the fingerprinted part of a plan. */
  datatype Inputs = Inputs(networkMagic: int, poolCount: int, epochLength: int, slotLength: string, envDir: string,
                           toolVersion: string)

  function InputsOf(s: Spec): Inputs
    requires Valid(s)
  {
    Inputs(s.networkMagic, s.poolCount, s.epochLength, FormatSlotLength(s.slotLength), s.envDir, s.version)
  }

  /** `buildCreateEnvInvocation`. */
  function Arguments(s: Spec): seq<string>
    requires Valid(s)
  {
    ["create-env", "--num-pool-nodes", Itoa(s.poolCount), "--testnet-magic", FormatInt(s.networkMagic),
     "--epoch-length", Itoa(s.epochLength), "--slot-length", FormatSlotLength(s.slotLength), "--output", s.envDir]
  }

  datatype Plan = Plan(spec: Spec, command: string, arguments: seq<string>, configFile: string, manifestFile: string,
                       fingerprint: Fingerprint<Inputs>, manifest: Manifest)

  datatype Manifest = Manifest(inputs: Inputs, fingerprint: Fingerprint<Inputs>)

  function PlanOf(s: Spec): Plan
    requires Valid(s) && IsRooted(s.envDir)
  {
    Plan(s, s.binary, Arguments(s), Join(s.envDir, "configuration.yaml"), Join(s.envDir, "yacd-localnet-plan.json"),
         Digest(InputsOf(s)), Manifest(InputsOf(s), Digest(InputsOf(s))))
  }

  /** The plan of an input that is accepted. */
  function Planned(given: Spec): Result<Plan, Problem> {
    if NormalForm(given).Err? then Err(NormalForm(given).error)
    else Ok(PlanOf(NormalForm(given).value))
  }

  method BuildPlan(given: Spec) returns (r: Result<Plan, Problem>)
    ensures r == Planned(given)
  {
    hide NormalForm;
    var normal := NormalizeSpec(given);
    if normal.Err? {
      return Err(normal.error);
    }
    var s := normal.value;
    assert Valid(s) && IsRooted(s.envDir) by { AcceptedIsPlannable(given); }
    var inputs := InputsOf(s);
    return Ok(Plan(s, s.binary, Arguments(s), Join(s.envDir, "configuration.yaml"),
                   Join(s.envDir, "yacd-localnet-plan.json"), Digest(inputs), Manifest(inputs, Digest(inputs))));
  }

  lemma AcceptedIsPlannable(given: Spec)
    requires NormalForm(given).Ok?
    ensures var s := NormalForm(given).value; Valid(s) && IsRooted(s.stateDir) && IsRooted(s.envDir)
  {
  }

  const CONFIG_FILE := "configuration.yaml"
  const MANIFEST_FILE := "yacd-localnet-plan.json"

  lemma ConfigIsProper()
    ensures Proper(CONFIG_FILE)
  {
    assert CONFIG_FILE[0] == 'c';
  }

  lemma ManifestIsProper()
    ensures Proper(MANIFEST_FILE)
  {
    assert MANIFEST_FILE[0] == 'y';
  }

  /** The config and the manifest lie directly in the env dir. */
  lemma FilesLieInTheEnvDir(given: Spec)
    requires Planned(given).Ok?
    ensures var plan := Planned(given).value; var env := Elements(plan.spec.envDir);
            && plan.configFile == Rooted(env + [CONFIG_FILE]) && plan.manifestFile == Rooted(env + [MANIFEST_FILE])
  {
    hide Elements, Rooted, Join, NormalForm, Proper;
    AcceptedIsPlannable(given);
    var env := Planned(given).value.spec.envDir;
    ConfigIsProper();
    ManifestIsProper();
    JoinAppends(env, CONFIG_FILE);
    JoinAppends(env, MANIFEST_FILE);
  }

  /** Two accepted inputs plan to equal fingerprints exactly if they agree, after normalization, in magic,
      pool count, epoch length, slot duration, env dir and tool version; state dir and binary do not count. */
  lemma FingerprintIff(a: Spec, b: Spec)
    requires Planned(a).Ok? && Planned(b).Ok?
    ensures Planned(a).value.fingerprint == Planned(b).value.fingerprint <==>
              && OrInt(a.networkMagic, 42) == OrInt(b.networkMagic, 42) && OrInt(a.poolCount, 1) == OrInt(b.poolCount, 1)
              && OrInt(a.epochLength, 500) == OrInt(b.epochLength, 500)
              && OrInt(a.slotLength, 100_000_000) == OrInt(b.slotLength, 100_000_000)
              && Elements(NormalForm(a).value.envDir) == Elements(NormalForm(b).value.envDir)
              && TrimSpace(a.version) == TrimSpace(b.version)
  {
    hide FormatSlotLength, CleanPath, NormalPath, TrimSpace, Join, Elements, Rooted;
    NormalFormGuarantees(a);
    NormalFormGuarantees(b);
    var x, y := NormalForm(a).value, NormalForm(b).value;
    if FormatSlotLength(x.slotLength) == FormatSlotLength(y.slotLength) {
      FormatSlotLengthInjective(x.slotLength, y.slotLength);
    }
    SameElementsSamePath(x.envDir, y.envDir);
  }

  lemma SameElementsSamePath(a: string, b: string)
    requires CleanPath(a) && CleanPath(b)
    ensures Elements(a) == Elements(b) <==> a == b
  {
  }

  /** Equal fingerprints mean the same create-env arguments for the same tool release, and conversely: a
      regenerated environment can only come from a changed fingerprint. */
  lemma FingerprintPinsInvocation(a: Spec, b: Spec)
    requires Planned(a).Ok? && Planned(b).Ok?
    ensures var p, q := Planned(a).value, Planned(b).value;
            p.fingerprint == q.fingerprint <==> p.arguments == q.arguments && p.spec.version == q.spec.version
  {
    hide FormatSlotLength, Itoa, FormatInt, NormalForm;
    AcceptedIsPlannable(a);
    AcceptedIsPlannable(b);
    ArgumentsInjective(NormalForm(a).value, NormalForm(b).value);
  }

  lemma ArgumentsInjective(a: Spec, b: Spec)
    requires Valid(a) && Valid(b)
    ensures InputsOf(a) == InputsOf(b) <==> Arguments(a) == Arguments(b) && a.version == b.version
  {
    hide FormatSlotLength, Itoa, FormatInt;
    if FormatSlotLength(a.slotLength) == FormatSlotLength(b.slotLength) {
      FormatSlotLengthInjective(a.slotLength, b.slotLength);
    }
    if Arguments(a) == Arguments(b) {
      var x, y := Arguments(a), Arguments(b);
      assert x[2] == y[2] && x[4] == y[4] && x[6] == y[6] && x[8] == y[8] && x[10] == y[10];
      FormatIntInjective(a.networkMagic, b.networkMagic);
      ItoaIsDecimal(a.poolCount);
      ItoaIsDecimal(b.poolCount);
      ItoaIsDecimal(a.epochLength);
      ItoaIsDecimal(b.epochLength);
    }
  }

  /** Zero for a default, and whitespace around a given path or version, are other spellings of one plan. */
  lemma SpellingIsIgnored(given: Spec, left: string, right: string)
    requires Blank(left) && Blank(right) && given.stateDir != "" && given.envDir != ""
    ensures Planned(given.(stateDir := left + given.stateDir + right, envDir := left + given.envDir + right,
                           version := left + given.version + right)) == Planned(given)
    ensures Planned(Defaulted(given)) == Planned(given)
  {
    hide TrimSpace, Clean, PlanOf;
    TrimAbsorbsPadding(left, given.stateDir, right);
    TrimAbsorbsPadding(left, given.envDir, right);
    TrimAbsorbsPadding(left, given.version, right);
  }

  // -------------------------------------------------------------------------------------------
  // What the plan says, on the given fields

  /** The accepted normal form, field by field: zero and the empty string give way to the defaults, the env dir to
      one under the state dir, and the rest is trimmed. */
  lemma NormalFormIsGiven(given: Spec)
    requires NormalForm(given).Ok?
    ensures var s := NormalForm(given).value;
            && s.networkMagic == (if given.networkMagic == 0 then 42 else given.networkMagic)
            && s.poolCount == (if given.poolCount == 0 then 1 else given.poolCount)
            && s.slotLength == (if given.slotLength == 0 then 100_000_000 else given.slotLength)
            && s.epochLength == (if given.epochLength == 0 then 500 else given.epochLength)
            && Elements(s.stateDir) == Elements(TrimSpace(if given.stateDir == "" then "/state" else given.stateDir))
            && Elements(s.envDir) ==
                 (if given.envDir == "" then Elements(s.stateDir) + ["env"] else Elements(TrimSpace(given.envDir)))
            && s.binary == (if given.binary == "" then "cardano-testnet" else TrimSpace(given.binary))
            && s.version == TrimSpace(given.version)
  {
    hide NormalPath, TrimSpace, Elements, Join;
    var d := Defaulted(given);
    NormalPathIsClean(d.stateDir);
    var stateDir := NormalPath(d.stateDir).value;
    assert NormalPath(d.stateDir).Some?;
    NormalPathIsClean(EnvDirOf(d, stateDir));
    if given.envDir == "" {
      DefaultEnvDir(stateDir);
    }
    assert Trimmed("cardano-testnet");
  }

  lemma DefaultEnvDir(stateDir: string)
    requires IsRooted(stateDir)
    ensures NormalPath(Join(stateDir, "env")).Some?
    ensures Elements(NormalPath(Join(stateDir, "env")).value) == Elements(stateDir) + ["env"]
  {
    hide NormalPath, TrimSpace, Elements, Join;
    JoinedEnvSettles(stateDir);
    JoinAppends(stateDir, "env");
  }

  /** The manifest and the command say the normal form. */
  lemma PlanSaysTheSpec(given: Spec)
    requires Planned(given).Ok?
    ensures NormalForm(given).Ok?
    ensures var p, s := Planned(given).value, NormalForm(given).value; var i := p.manifest.inputs;
            && p.spec == s && p.command == s.binary && p.fingerprint == Digest(i) && p.manifest.fingerprint == Digest(i)
            && i.networkMagic == s.networkMagic && i.poolCount == s.poolCount && i.epochLength == s.epochLength
            && IsSeconds(i.slotLength) && ParseSeconds(i.slotLength) == s.slotLength
            && i.envDir == s.envDir && i.toolVersion == s.version
  {
    hide NormalForm, IsSeconds, ParseSeconds, FormatSlotLength;
    AcceptedIsPlannable(given);
    SlotLengthRoundTrip(NormalForm(given).value.slotLength);
  }

  const POOLS := "--num-pool-nodes"
  const MAGIC := "--testnet-magic"
  const EPOCH := "--epoch-length"
  const SLOT := "--slot-length"
  const OUTPUT := "--output"
  const VALUED: set<string> := {POOLS, MAGIC, EPOCH, SLOT, OUTPUT}

  lemma OptionsDiffer()
    ensures POOLS != MAGIC && POOLS != EPOCH && POOLS != SLOT && POOLS != OUTPUT && MAGIC != EPOCH && MAGIC != SLOT
    ensures MAGIC != OUTPUT && EPOCH != SLOT && EPOCH != OUTPUT && SLOT != OUTPUT
  {
    assert POOLS[2] == 'n' && MAGIC[2] == 't' && EPOCH[2] == 'e' && SLOT[2] == 's' && OUTPUT[2] == 'o';
  }

  const OPTIONS := [POOLS, MAGIC, EPOCH, SLOT, OUTPUT]

  lemma OptionsOf(s: Spec)
    requires Valid(s)
    ensures Arguments(s)[1..] ==
            Pairs(OPTIONS, [Itoa(s.poolCount), FormatInt(s.networkMagic), Itoa(s.epochLength),
                            FormatSlotLength(s.slotLength), s.envDir])
  {
    hide Itoa, FormatInt, FormatSlotLength;
    var v := [Itoa(s.poolCount), FormatInt(s.networkMagic), Itoa(s.epochLength), FormatSlotLength(s.slotLength), s.envDir];
    FivePairs(OPTIONS, v);
  }

  lemma FivePairs(o: seq<string>, v: seq<string>)
    requires |o| == |v| == 5
    ensures Pairs(o, v) == [o[0], v[0], o[1], v[1], o[2], v[2], o[3], v[3], o[4], v[4]]
  {
    assert Pairs(o[4..], v[4..]) == [o[4], v[4]] by { assert o[4..][1..] == []; }
    assert o[3..][1..] == o[4..] && v[3..][1..] == v[4..];
    assert o[2..][1..] == o[3..] && v[2..][1..] == v[3..];
    assert o[1..][1..] == o[2..] && v[1..][1..] == v[2..];
    assert Pairs(o[3..], v[3..]) == [o[3], v[3]] + Pairs(o[4..], v[4..]);
    assert Pairs(o[2..], v[2..]) == [o[2], v[2]] + Pairs(o[3..], v[3..]);
    assert Pairs(o[1..], v[1..]) == [o[1], v[1]] + Pairs(o[2..], v[2..]);
  }

  /** create-env reads back pool count, magic, epoch length, slot length in nanoseconds and env dir. */
  lemma ArgumentsAreRead(given: Spec)
    requires Planned(given).Ok?
    ensures NormalForm(given).Ok?
    ensures var s, args := NormalForm(given).value, Planned(given).value.arguments;
            && |args| > 0 && args[0] == "create-env"
            && var r := Read(args[1..], VALUED);
            && r.options.Keys == VALUED && r.switches == {}
            && AllDigits(r.options[POOLS]) && ParseNat(r.options[POOLS]) == s.poolCount
            && AllDigits(r.options[MAGIC]) && ParseNat(r.options[MAGIC]) == s.networkMagic
            && AllDigits(r.options[EPOCH]) && ParseNat(r.options[EPOCH]) == s.epochLength
            && IsSeconds(r.options[SLOT]) && ParseSeconds(r.options[SLOT]) == s.slotLength
            && r.options[OUTPUT] == s.envDir
  {
    hide NormalForm, IsSeconds, ParseSeconds, FormatSlotLength, Itoa, FormatInt, Read, Pairs;
    AcceptedIsPlannable(given);
    var s := NormalForm(given).value;
    OptionsOf(s);
    OptionsDiffer();
    var values := [Itoa(s.poolCount), FormatInt(s.networkMagic), Itoa(s.epochLength), FormatSlotLength(s.slotLength), s.envDir];
    OptionsAreRead(OPTIONS, values, VALUED);
    assert OPTIONS[0] == POOLS && OPTIONS[1] == MAGIC && OPTIONS[2] == EPOCH && OPTIONS[3] == SLOT && OPTIONS[4] == OUTPUT;
    SlotLengthRoundTrip(s.slotLength);
    ItoaIsDecimal(s.poolCount);
    ItoaIsDecimal(s.epochLength);
    MagicIsDecimal(s.networkMagic);
  }

  lemma MagicIsDecimal(magic: nat)
    ensures AllDigits(FormatInt(magic)) && ParseNat(FormatInt(magic)) == magic
  {
    FormatIntDenotes(magic);
    FormatIntCharacters(magic);
  }
}
