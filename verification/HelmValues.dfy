/** Layering of Helm values (cli/internal/operator/values.go, cli/internal/cli/install_values.go):
    nested maps merge key by key, anything else is replaced, the later layer wins. */
module HelmValues {
  import opened Fingerprints

  /** A YAML value: a map, or anything else. */
  datatype Val = Leaf(text: string) | Map(entries: map<string, Val>)

  type Entries = map<string, Val>

  /** `src` merged over `dst`. */
  function Merge(dst: Val, src: Val): Val
    decreases src
  {
    if dst.Map? && src.Map? then
      Map(map k | k in dst.entries.Keys + src.entries.Keys ::
        if k !in src.entries then dst.entries[k]
        else if k !in dst.entries then src.entries[k]
        else Merge(dst.entries[k], src.entries[k]))
    else src
  }

  /** `mergeValues` and `mergeValueMaps`: the keys of `src` in any order, recursing where both sides hold
      a map. */
  method MergeValues(given: Entries, src: Val) returns (dst: Entries)
    requires src.Map?
    ensures Map(dst) == Merge(Map(given), src)
    decreases src
  {
    dst := given;
    var todo := src.entries.Keys;
    while todo != {}
      invariant todo <= src.entries.Keys
      invariant dst.Keys == given.Keys + (src.entries.Keys - todo)
      invariant forall k :: k in todo && k in given ==> dst[k] == given[k]
      invariant forall k :: k in dst && k !in src.entries ==> dst[k] == given[k]
      invariant forall k :: k in src.entries && k !in todo ==>
                  dst[k] == if k in given then Merge(given[k], src.entries[k]) else src.entries[k]
      decreases todo
    {
      var key :| key in todo;
      var value := src.entries[key];
      if value.Map? && key in dst && dst[key].Map? {
        var merged := MergeValues(dst[key].entries, value);
        dst := dst[key := Map(merged)];
      } else {
        dst := dst[key := value];
      }
      todo := todo - {key};
    }
    assert Map(dst) == Merge(Map(given), src);
  }

  // -------------------------------------------------------------------------------------------
  // What is where after a merge

  function Get(v: Val, path: seq<string>): Option<Val>
    decreases path
  {
    if path == [] then Some(v)
    else if v.Map? && path[0] in v.entries then Get(v.entries[path[0]], path[1..])
    else None
  }

  /** A proper prefix of `path` ends at a leaf of `v`. */
  predicate LeafAbove(v: Val, path: seq<string>)
    decreases path
  {
    path != [] && (v.Leaf? || (path[0] in v.entries && LeafAbove(v.entries[path[0]], path[1..])))
  }

  /** The merged tree, path by path: below a leaf of `src` nothing is left; where `src` has nothing,
      `dst` shows through; where both hold maps they are merged; everywhere else `src` decides. */
  lemma {:induction false} MergedAt(dst: Val, src: Val, path: seq<string>)
    ensures Get(Merge(dst, src), path) ==
            match Get(src, path)
            case None => if LeafAbove(src, path) then None else Get(dst, path)
            case Some(s) =>
              match Get(dst, path)
              case None => Some(s)
              case Some(d) => Some(Merge(d, s))
    decreases path
  {
    if path != [] && src.Map? && dst.Map? && path[0] in src.entries && path[0] in dst.entries {
      MergedAt(dst.entries[path[0]], src.entries[path[0]], path[1..]);
    }
  }

  /** Every leaf of the later layer arrives. */
  lemma LaterLeafWins(dst: Val, src: Val, path: seq<string>, text: string)
    requires Get(src, path) == Some(Leaf(text))
    ensures Get(Merge(dst, src), path) == Some(Leaf(text))
  {
    MergedAt(dst, src, path);
  }

  /** A leaf of the earlier layer is kept exactly when the later one has neither the same path nor a leaf
      above it, or repeats the leaf. */
  lemma EarlierLeafKeptIff(dst: Val, src: Val, path: seq<string>, text: string)
    requires Get(dst, path) == Some(Leaf(text))
    ensures Get(Merge(dst, src), path) == Some(Leaf(text))
            <==> (Get(src, path).None? && !LeafAbove(src, path)) || Get(src, path) == Some(Leaf(text))
  {
    MergedAt(dst, src, path);
  }

  // -------------------------------------------------------------------------------------------
  // Folding layers

  /** Merging `a` under `c` adds nothing: `c` has all of `a`'s keys, all the way down. */
  predicate Covers(c: Val, a: Val)
    decreases a
  {
    a.Map? && c.Map? ==> forall k :: k in a.entries ==> k in c.entries && Covers(c.entries[k], a.entries[k])
  }

  lemma {:induction false} CoversIff(a: Val, c: Val)
    ensures Merge(a, c) == c <==> Covers(c, a)
    decreases c
  {
    if a.Map? && c.Map? {
      var m := Merge(a, c).entries;
      forall k | k in a.entries && k in c.entries ensures m[k] == c.entries[k] <==> Covers(c.entries[k], a.entries[k]) {
        CoversIff(a.entries[k], c.entries[k]);
      }
      if Covers(c, a) {
        assert m == c.entries;
      } else {
        var k :| k in a.entries && !(k in c.entries && Covers(c.entries[k], a.entries[k]));
        assert k in m;
      }
    }
  }

  /** No place where a leaf of `b` hides a map of `a` from a map of `c` that does not cover it. */
  predicate Harmless(a: Val, b: Val, c: Val)
    decreases b
  {
    && (a.Map? && b.Leaf? && c.Map? ==> Covers(c, a))
    && (a.Map? && b.Map? && c.Map? ==>
          forall k :: k in b.entries && k in a.entries && k in c.entries ==>
            Harmless(a.entries[k], b.entries[k], c.entries[k]))
  }

  /** Merging two layers first and then over a base is merging them over the base in turn, exactly when
      no leaf of the middle layer hides a map of the base from a map of the last one. */
  lemma {:induction false} MergeAssociatesIff(a: Val, b: Val, c: Val)
    ensures Merge(Merge(a, b), c) == Merge(a, Merge(b, c)) <==> Harmless(a, b, c)
    decreases b
  {
    if a.Map? && b.Leaf? && c.Map? {
      CoversIff(a, c);
    } else if a.Map? && b.Map? && c.Map? {
      AssociatesByKey(a, b, c);
      var left, right := Merge(Merge(a, b), c).entries, Merge(a, Merge(b, c)).entries;
      if Harmless(a, b, c) {
        assert left == right;
      } else {
        var k :| k in b.entries && k in a.entries && k in c.entries
                 && !Harmless(a.entries[k], b.entries[k], c.entries[k]);
        assert left[k] != right[k];
      }
    }
  }

  lemma {:induction false} AssociatesByKey(a: Val, b: Val, c: Val)
    requires a.Map? && b.Map? && c.Map?
    ensures var left, right := Merge(Merge(a, b), c).entries, Merge(a, Merge(b, c)).entries;
            && left.Keys == right.Keys == a.entries.Keys + b.entries.Keys + c.entries.Keys
            && forall k :: k in left ==>
                 (left[k] == right[k] <==>
                    (k in b.entries && k in a.entries && k in c.entries ==>
                       Harmless(a.entries[k], b.entries[k], c.entries[k])))
    decreases b, 0
  {
    var left, right := Merge(Merge(a, b), c).entries, Merge(a, Merge(b, c)).entries;
    forall k | k in left
      ensures left[k] == right[k] <==>
              (k in b.entries && k in a.entries && k in c.entries ==>
                 Harmless(a.entries[k], b.entries[k], c.entries[k]))
    {
      if k in b.entries && k in a.entries && k in c.entries {
        MergeAssociatesIff(a.entries[k], b.entries[k], c.entries[k]);
      }
    }
  }

  /** Layers merged in turn over a base. */
  function Fold(base: Val, layers: seq<Val>): Val {
    if layers == [] then base else Merge(Fold(base, layers[..|layers| - 1]), layers[|layers| - 1])
  }

  const NOTHING := Map(map[])

  /** `b` has no leaf where `a` has a map. */
  predicate KeepsMaps(a: Val, b: Val)
    decreases a
  {
    a.Map? ==> b.Map? && forall k :: k in a.entries && k in b.entries ==> KeepsMaps(a.entries[k], b.entries[k])
  }

  /** What the layers have at a key, in order. */
  function At(layers: seq<Val>, k: string): seq<Val> {
    if layers == [] then []
    else
      var last := layers[|layers| - 1];
      At(layers[..|layers| - 1], k) + if last.Map? && k in last.entries then [last.entries[k]] else []
  }

  predicate AllMaps(layers: seq<Val>) {
    forall v :: v in layers ==> v.Map?
  }

  /** Nowhere does a layer's leaf hide a map of `a` that the layers together do not give all its keys back. */
  ghost predicate FoldHarmless(a: Val, layers: seq<Val>)
    decreases a
  {
    a.Map? ==>
      if AllMaps(layers) then forall k :: k in a.entries ==> FoldHarmless(a.entries[k], At(layers, k))
      else Covers(Fold(NOTHING, layers), a)
  }

  lemma {:induction false} NoLayersAreHarmless(a: Val)
    ensures FoldHarmless(a, [])
    decreases a
  {
    if a.Map? {
      forall k | k in a.entries ensures FoldHarmless(a.entries[k], At([], k)) {
        NoLayersAreHarmless(a.entries[k]);
      }
    }
  }

  lemma MergeOverNothing(v: Val)
    ensures Merge(NOTHING, v) == v
  {
    if v.Map? {
      assert Merge(NOTHING, v).entries == v.entries;
    }
  }

  /** Behind a leaf the base does not matter. */
  lemma {:induction false} FoldBehindLeaf(base: Val, other: Val, layers: seq<Val>)
    requires !AllMaps(layers) || (layers != [] && base.Leaf? && other == NOTHING)
    ensures Fold(base, layers) == Fold(other, layers)
    decreases |layers|
  {
    var n := |layers| - 1;
    if layers[n].Map? {
      if AllMaps(layers[..n]) {
        assert layers == layers[..n] + [layers[n]];
        assert base.Leaf? && other == NOTHING;
        if n == 0 {
          MergeOverNothing(layers[0]);
        } else {
          FoldBehindLeaf(base, other, layers[..n]);
        }
      } else {
        FoldBehindLeaf(base, other, layers[..n]);
      }
    }
  }

  lemma FoldLast(base: Val, layers: seq<Val>, last: Val)
    ensures Fold(base, layers + [last]) == Merge(Fold(base, layers), last)
  {
    assert (layers + [last])[..|layers|] == layers;
  }

  lemma MergeAtKey(dst: Val, src: Val, k: string)
    requires dst.Map? && src.Map?
    ensures var m := Merge(dst, src);
            && m.Map? && (k in m.entries <==> k in dst.entries || k in src.entries)
            && (k in src.entries && k in dst.entries ==> m.entries[k] == Merge(dst.entries[k], src.entries[k]))
            && (k in src.entries && k !in dst.entries ==> m.entries[k] == src.entries[k])
            && (k !in src.entries && k in dst.entries ==> m.entries[k] == dst.entries[k])
  {
  }

  /** Folding maps goes key by key. */
  lemma {:induction false} FoldByKey(base: Val, layers: seq<Val>, k: string)
    requires base.Map? && AllMaps(layers)
    ensures var f := Fold(base, layers); var at := At(layers, k);
            && f.Map?
            && (k in f.entries <==> k in base.entries || at != [])
            && (k in base.entries ==> f.entries[k] == Fold(base.entries[k], at))
            && (k !in base.entries && at != [] ==> f.entries[k] == Fold(NOTHING, at))
    decreases |layers|
  {
    hide Merge;
    if layers != [] {
      var n := |layers| - 1;
      var last, at := layers[n], At(layers[..n], k);
      assert last in layers;
      FoldByKey(base, layers[..n], k);
      MergeAtKey(Fold(base, layers[..n]), last, k);
      if k in last.entries {
        assert At(layers, k) == at + [last.entries[k]];
        if k in base.entries {
          FoldLast(base.entries[k], at, last.entries[k]);
        } else {
          FoldLast(NOTHING, at, last.entries[k]);
          MergeOverNothing(last.entries[k]);
        }
      } else {
        assert At(layers, k) == at;
      }
    }
  }

  lemma {:induction false} FoldThenMergeAtIff(a: Val, layers: seq<Val>)
    requires layers != []
    ensures Merge(a, Fold(NOTHING, layers)) == Fold(a, layers) <==> FoldHarmless(a, layers)
    decreases a
  {
    if a.Leaf? {
      FoldBehindLeaf(a, NOTHING, layers);
    } else if AllMaps(layers) {
      FoldThenMergeMapsIff(a, layers);
    } else {
      FoldBehindLeaf(a, NOTHING, layers);
      CoversIff(a, Fold(NOTHING, layers));
    }
  }

  lemma {:induction false} FoldThenMergeMapsIff(a: Val, layers: seq<Val>)
    requires layers != [] && a.Map? && AllMaps(layers)
    ensures Merge(a, Fold(NOTHING, layers)) == Fold(a, layers) <==> FoldHarmless(a, layers)
    decreases a, 0
  {
    hide FoldHarmless, At, Fold, Covers;
    HarmlessByKey(a, layers);
    FoldByKey(a, layers, "");
    FoldByKey(NOTHING, layers, "");
    var left, right := Merge(a, Fold(NOTHING, layers)).entries, Fold(a, layers).entries;
    forall k
      ensures k in left <==> k in right
      ensures k in left && k !in a.entries ==> left[k] == right[k]
      ensures k in a.entries ==> (left[k] == right[k] <==> FoldHarmless(a.entries[k], At(layers, k)))
    {
      FoldByKey(a, layers, k);
      FoldByKey(NOTHING, layers, k);
      if k in a.entries {
        if At(layers, k) == [] {
          NoLayersAreHarmless(a.entries[k]);
          FoldOfNone(a.entries[k]);
        } else {
          FoldThenMergeAtIff(a.entries[k], At(layers, k));
        }
      }
    }
    if FoldHarmless(a, layers) {
      assert left == right;
    } else {
      var k :| k in a.entries && !FoldHarmless(a.entries[k], At(layers, k));
      assert left[k] != right[k];
    }
  }

  lemma FoldOfNone(base: Val)
    ensures Fold(base, []) == base
  {
  }

  lemma HarmlessByKey(a: Val, layers: seq<Val>)
    requires a.Map? && AllMaps(layers)
    ensures FoldHarmless(a, layers) <==> forall k :: k in a.entries ==> FoldHarmless(a.entries[k], At(layers, k))
  {
  }

  /** Any number of values files: folding them first and merging the result over the typed fields is merging
      each over them in turn, exactly if no file's leaf hides a typed map that the files together do not give
      all its keys back. */
  lemma FoldThenMergeIff(base: Val, layers: seq<Val>)
    requires base.Map?
    ensures Merge(base, Fold(NOTHING, layers)) == Fold(base, layers) <==> FoldHarmless(base, layers)
  {
    if layers == [] {
      assert Merge(base, NOTHING).entries == base.entries;
      NoLayersAreHarmless(base);
    } else {
      FoldThenMergeAtIff(base, layers);
    }
  }

  lemma {:induction false} FromLayers(layers: seq<Val>, k: string, v: Val)
    requires v in At(layers, k)
    ensures exists layer :: layer in layers && layer.Map? && k in layer.entries && layer.entries[k] == v
    decreases |layers|
  {
    if layers != [] {
      var n := |layers| - 1;
      if v in At(layers[..n], k) {
        FromLayers(layers[..n], k, v);
      } else {
        assert layers[n] in layers;
      }
    }
  }

  lemma {:induction false} KeepingMapsIsHarmless(a: Val, layers: seq<Val>)
    requires forall v :: v in layers ==> KeepsMaps(a, v)
    ensures FoldHarmless(a, layers)
    decreases a
  {
    if a.Map? {
      forall k | k in a.entries ensures FoldHarmless(a.entries[k], At(layers, k)) {
        forall v | v in At(layers, k) ensures KeepsMaps(a.entries[k], v) {
          FromLayers(layers, k, v);
        }
        KeepingMapsIsHarmless(a.entries[k], At(layers, k));
      }
    }
  }

  /** In particular if no file puts a leaf where the typed fields have a map. The files may clash with each
      other as they like. */
  lemma FoldThenMerge(base: Val, layers: seq<Val>)
    requires base.Map? && forall v :: v in layers ==> KeepsMaps(base, v)
    ensures Merge(base, Fold(NOTHING, layers)) == Fold(base, layers)
  {
    KeepingMapsIsHarmless(base, layers);
    FoldThenMergeIff(base, layers);
  }

  lemma FoldOfTwo(base: Val, first: Val, second: Val)
    ensures Fold(base, [first, second]) == Merge(Merge(base, first), second)
  {
    assert [first, second][..1] == [first] && [first][..0] == [];
    assert Fold(base, [first]) == Merge(Fold(base, []), first);
  }

  /** Where a file does put a leaf over a typed map, the two orders differ: the fold brings the typed
      entry back. */
  lemma LeafBetweenMapsDiffers(key: string, typed: Entries, last: Entries, hidden: string)
    requires hidden in typed && hidden !in last
    ensures var base := Map(map[key := Map(typed)]);
            var layers := [Map(map[key := Leaf("null")]), Map(map[key := Map(last)])];
            && Get(Merge(base, Fold(NOTHING, layers)), [key, hidden]) == Some(typed[hidden])
            && Get(Fold(base, layers), [key, hidden]) == None
  {
    var base := Map(map[key := Map(typed)]);
    var first, second := Map(map[key := Leaf("null")]), Map(map[key := Map(last)]);
    var layers := [first, second];
    FoldOfTwo(NOTHING, first, second);
    FoldOfTwo(base, first, second);
    assert Merge(Merge(NOTHING, first), second).entries[key] == Map(last);
    assert Merge(Merge(base, first), second).entries[key] == Map(last);
    assert [key, hidden][1..] == [hidden] && [hidden][1..] == [];
    var merged := Merge(base, Fold(NOTHING, layers));
    assert merged.entries[key] == Merge(Map(typed), Map(last));
    assert Get(merged.entries[key], [hidden]) == Some(typed[hidden]);
  }

  // -------------------------------------------------------------------------------------------
  // The two callers

  /** One `--set` or `--set-string` line: `strvals` writes it into the accumulated tree, or refuses it. */
  type Assignment = Entries -> Option<Entries>

  datatype OverrideError = FileFailed | SetFailed | SetStringFailed

  /** The lines written into the tree one after the other, or nothing if one is refused. */
  function Assigned(entries: Entries, lines: seq<Assignment>): Option<Entries> {
    if lines == [] then Some(entries)
    else
      var before := Assigned(entries, lines[..|lines| - 1]);
      if before.None? then None else lines[|lines| - 1](before.value)
  }

  lemma {:induction false} RefusalStays(entries: Entries, lines: seq<Assignment>, i: nat)
    requires i <= |lines| && Assigned(entries, lines[..i]).None?
    ensures Assigned(entries, lines).None?
    decreases |lines|
  {
    if i < |lines| {
      assert lines[..|lines| - 1][..i] == lines[..i];
      RefusalStays(entries, lines[..|lines| - 1], i);
    } else {
      assert lines[..i] == lines;
    }
  }

  /** One of the two `--set` loops. */
  method Assign(entries: Entries, lines: seq<Assignment>) returns (r: Option<Entries>)
    ensures r == Assigned(entries, lines)
  {
    r := Some(entries);
    for i := 0 to |lines|
      invariant r.Some? && r == Assigned(entries, lines[..i])
    {
      assert lines[..i + 1][..i] == lines[..i];
      r := lines[i](r.value);
      if r.None? {
        RefusalStays(entries, lines, i + 1);
        return;
      }
    }
    assert lines[..|lines|] == lines;
  }

  /** The parsed files; a file that cannot be read or parsed is none. */
  function Parsed(files: seq<Option<Entries>>): seq<Val>
    requires None !in files
  {
    seq(|files|, i requires 0 <= i < |files| => Map(files[i].value))
  }

  /** The files folded. */
  function Folded(files: seq<Option<Entries>>): Entries
    requires None !in files
  {
    Fold(NOTHING, Parsed(files)).entries
  }

  /** What the flags mean: the files folded, then the `--set` lines, then the `--set-string` lines. */
  function Overrides(files: seq<Option<Entries>>, sets: seq<Assignment>, setStrings: seq<Assignment>): Option<Entries>
    requires None !in files
  {
    var tree := Assigned(Folded(files), sets);
    if tree.None? then None else Assigned(tree.value, setStrings)
  }

  /** `buildUserOverrides`: nothing when the flags leave nothing, otherwise the layers in order; it fails exactly
      if a file does or a line is refused. */
  method BuildUserOverrides(files: seq<Option<Entries>>, sets: seq<Assignment>, setStrings: seq<Assignment>)
    returns (r: Result<Option<Entries>, OverrideError>)
    ensures r.Err? <==> None in files || Overrides(files, sets, setStrings).None?
    ensures r.Err? && r.error.FileFailed? <==> None in files
    ensures r.Ok? ==> var m := Overrides(files, sets, setStrings).value; r.value == if m == map[] then None else Some(m)
  {
    var overrides: Entries := map[];
    for i := 0 to |files|
      invariant None !in files[..i]
      invariant Map(overrides) == Fold(NOTHING, Parsed(files[..i]))
    {
      if files[i].None? {
        return Err(FileFailed);
      }
      assert files[..i + 1] == files[..i] + [files[i]];
      assert Parsed(files[..i + 1])[..i] == Parsed(files[..i]);
      overrides := MergeValues(overrides, Map(files[i].value));
    }
    assert files[..|files|] == files;
    var tree := Assign(overrides, sets);
    if tree.None? {
      return Err(SetFailed);
    }
    tree := Assign(tree.value, setStrings);
    if tree.None? {
      return Err(SetStringFailed);
    }
    return Ok(if tree.value == map[] then None else tree);
  }

  datatype Image = Image(repository: string, tag: string, digest: string)

  datatype Values = Values(image: Image, replicas: Option<string>, logFormat: string, logLevel: string,
                           leaderElection: Option<bool>, extra: Entries)

  /** An entry that is left out when blank. */
  function Entry(key: string, text: string): Entries {
    if text == "" then map[] else map[key := Leaf(text)]
  }

  /** A sub-tree that is left out when empty. */
  function SubTree(key: string, entries: Entries): Entries {
    if entries == map[] then map[] else map[key := Map(entries)]
  }

  function ImageEntries(image: Image): Entries {
    Entry("repository", image.repository) + Entry("tag", image.tag) + Entry("digest", image.digest)
  }

  function ManagerEntries(v: Values): Entries {
    Entry("logFormat", v.logFormat) + Entry("logLevel", v.logLevel)
  }

  function Replicas(v: Values): Entries {
    if v.replicas.Some? then map["replicaCount" := Leaf(v.replicas.value)] else map[]
  }

  function LeaderElection(v: Values): Entries {
    if v.leaderElection.None? then map[]
    else map["leaderElection" := Map(map["enabled" := Leaf(if v.leaderElection.value then "true" else "false")])]
  }

  /** The chart values the typed fields stand for. */
  function Typed(v: Values): Val {
    Map(SubTree("image", ImageEntries(v.image)) + Replicas(v) + SubTree("manager", ManagerEntries(v)) + LeaderElection(v))
  }

  method ImageValues(image: Image) returns (out: Entries)
    ensures out == ImageEntries(image)
  {
    out := map[];
    if image.repository != "" {
      out := out["repository" := Leaf(image.repository)];
    }
    if image.tag != "" {
      out := out["tag" := Leaf(image.tag)];
    }
    if image.digest != "" {
      out := out["digest" := Leaf(image.digest)];
    }
  }

  method ManagerValues(v: Values) returns (manager: Entries)
    ensures manager == ManagerEntries(v)
  {
    manager := map[];
    if v.logFormat != "" {
      manager := manager["logFormat" := Leaf(v.logFormat)];
    }
    if v.logLevel != "" {
      manager := manager["logLevel" := Leaf(v.logLevel)];
    }
  }

  /** The first half of the typed fields. */
  method ImageAndReplicas(v: Values) returns (out: Entries)
    ensures out == SubTree("image", ImageEntries(v.image)) + Replicas(v)
  {
    hide ImageEntries;
    out := map[];
    var img := ImageValues(v.image);
    if img != map[] {
      out := out["image" := Map(img)];
    }
    if v.replicas.Some? {
      out := out["replicaCount" := Leaf(v.replicas.value)];
    }
  }

  /** The second half. */
  method ManagerAndElection(v: Values, given: Entries) returns (out: Entries)
    ensures out == given + SubTree("manager", ManagerEntries(v)) + LeaderElection(v)
  {
    hide ManagerEntries;
    out := given;
    var manager := ManagerValues(v);
    if manager != map[] {
      out := out["manager" := Map(manager)];
    }
    if v.leaderElection.Some? {
      out := out["leaderElection" := Map(map["enabled" := Leaf(if v.leaderElection.value then "true" else "false")])];
    }
  }

  /** `Values.ToHelmValues`. */
  method ToHelmValues(v: Values) returns (out: Entries)
    ensures Map(out) == Merge(Typed(v), Map(v.extra))
  {
    hide Merge, SubTree, LeaderElection, Replicas;
    out := ImageAndReplicas(v);
    out := ManagerAndElection(v, out);
    out := MergeValues(out, Map(v.extra));
  }

  // -------------------------------------------------------------------------------------------
  // What the chart is told

  const IMAGE := "image"
  const REPOSITORY := "repository"
  const TAG := "tag"
  const DIGEST := "digest"
  const REPLICAS := "replicaCount"
  const MANAGER := "manager"
  const LOG_FORMAT := "logFormat"
  const LOG_LEVEL := "logLevel"
  const LEADER_ELECTION := "leaderElection"
  const ENABLED := "enabled"

  lemma KeysDiffer()
    ensures IMAGE != REPLICAS && IMAGE != MANAGER && IMAGE != LEADER_ELECTION && REPLICAS != MANAGER
    ensures REPLICAS != LEADER_ELECTION && MANAGER != LEADER_ELECTION
    ensures REPOSITORY != TAG && REPOSITORY != DIGEST && TAG != DIGEST && LOG_FORMAT != LOG_LEVEL
  {
    assert IMAGE[0] == 'i' && REPLICAS[0] == 'r' && MANAGER[0] == 'm' && LEADER_ELECTION[0] == 'l';
    assert REPOSITORY[0] == 'r' && TAG[0] == 't' && DIGEST[0] == 'd' && LOG_FORMAT[3] != LOG_LEVEL[3];
  }

  /** The chart's name for each typed field, and the fields that are set. */
  predicate FieldAt(v: Values, path: seq<string>, text: string) {
    || (path == [IMAGE, REPOSITORY] && text == v.image.repository && text != "")
    || (path == [IMAGE, TAG] && text == v.image.tag && text != "")
    || (path == [IMAGE, DIGEST] && text == v.image.digest && text != "")
    || (path == [REPLICAS] && v.replicas == Some(text))
    || (path == [MANAGER, LOG_FORMAT] && text == v.logFormat && text != "")
    || (path == [MANAGER, LOG_LEVEL] && text == v.logLevel && text != "")
    || (path == [LEADER_ELECTION, ENABLED] && v.leaderElection.Some?
        && text == if v.leaderElection.value then "true" else "false")
  }

  lemma TypedEntries(v: Values)
    ensures var e := Typed(v).entries;
            && (forall k :: k in e ==> k == IMAGE || k == REPLICAS || k == MANAGER || k == LEADER_ELECTION)
            && (IMAGE in e <==> ImageEntries(v.image) != map[]) && (IMAGE in e ==> e[IMAGE] == Map(ImageEntries(v.image)))
            && (REPLICAS in e <==> v.replicas.Some?) && (REPLICAS in e ==> e[REPLICAS] == Leaf(v.replicas.value))
            && (MANAGER in e <==> ManagerEntries(v) != map[]) && (MANAGER in e ==> e[MANAGER] == Map(ManagerEntries(v)))
            && (LEADER_ELECTION in e <==> v.leaderElection.Some?)
            && (LEADER_ELECTION in e ==>
                  e[LEADER_ELECTION] == Map(map[ENABLED := Leaf(if v.leaderElection.value then "true" else "false")]))
  {
    hide ImageEntries, ManagerEntries;
    KeysDiffer();
  }

  lemma EntryAt(key: string, text: string, k: string)
    ensures k in Entry(key, text) <==> k == key && text != ""
    ensures k in Entry(key, text) ==> Entry(key, text)[k] == Leaf(text)
  {
  }

  lemma ImageEntryAt(image: Image, k: string, text: string)
    ensures var e := ImageEntries(image);
            k in e && e[k] == Leaf(text) <==>
              || (k == REPOSITORY && text == image.repository && text != "")
              || (k == TAG && text == image.tag && text != "") || (k == DIGEST && text == image.digest && text != "")
    ensures k in ImageEntries(image) ==> ImageEntries(image)[k].Leaf?
  {
    hide Entry;
    KeysDiffer();
    EntryAt(REPOSITORY, image.repository, k);
    EntryAt(TAG, image.tag, k);
    EntryAt(DIGEST, image.digest, k);
  }

  lemma ManagerEntryAt(v: Values, k: string, text: string)
    ensures var e := ManagerEntries(v);
            k in e && e[k] == Leaf(text) <==>
              (k == LOG_FORMAT && text == v.logFormat && text != "") || (k == LOG_LEVEL && text == v.logLevel && text != "")
    ensures k in ManagerEntries(v) ==> ManagerEntries(v)[k].Leaf?
  {
    hide Entry;
    KeysDiffer();
    EntryAt(LOG_FORMAT, v.logFormat, k);
    EntryAt(LOG_LEVEL, v.logLevel, k);
  }

  lemma GetOne(v: Val, path: seq<string>)
    requires |path| == 1
    ensures Get(v, path) == if v.Map? && path[0] in v.entries then Some(v.entries[path[0]]) else None
  {
    assert path[1..] == [];
  }

  lemma GetNext(v: Val, path: seq<string>)
    requires path != []
    ensures Get(v, path) == if v.Map? && path[0] in v.entries then Get(v.entries[path[0]], path[1..]) else None
  {
  }

  lemma GetTwo(v: Val, path: seq<string>)
    requires |path| == 2
    ensures Get(v, path) ==
            if v.Map? && path[0] in v.entries && v.entries[path[0]].Map? && path[1] in v.entries[path[0]].entries
            then Some(v.entries[path[0]].entries[path[1]]) else None
  {
    hide Get;
    GetNext(v, path);
    if v.Map? && path[0] in v.entries {
      GetOne(v.entries[path[0]], path[1..]);
    }
  }

  lemma BelowALeaf(v: Val, path: seq<string>)
    requires path != [] && v.Leaf?
    ensures Get(v, path).None?
  {
  }

  /** Two levels down there are only leaves. */
  lemma TwoLevels(v: Values, a: string, b: string)
    requires a in Typed(v).entries && Typed(v).entries[a].Map? && b in Typed(v).entries[a].entries
    ensures Typed(v).entries[a].entries[b].Leaf?
  {
    hide ImageEntries, ManagerEntries, Typed;
    TypedEntries(v);
    ImageEntryAt(v.image, b, "");
    ManagerEntryAt(v, b, "");
  }

  /** Nothing lies deeper than two levels. */
  lemma GetDeeper(v: Values, path: seq<string>)
    requires |path| > 2
    ensures Get(Typed(v), path).None?
  {
    hide Get, Typed;
    var t := Typed(v);
    GetNext(t, path);
    if t.Map? && path[0] in t.entries {
      var inner, rest := t.entries[path[0]], path[1..];
      GetNext(inner, rest);
      if inner.Map? && rest[0] in inner.entries {
        TypedIsMap(v);
        TwoLevels(v, path[0], rest[0]);
        BelowALeaf(inner.entries[rest[0]], rest[1..]);
      }
    }
  }

  lemma TypedIsMap(v: Values)
    ensures Typed(v).Map?
  {
  }

  lemma PairIs(path: seq<string>, a: string, b: string)
    requires |path| == 2
    ensures path == [a, b] <==> path[0] == a && path[1] == b
  {
  }

  lemma FieldAtTwo(v: Values, path: seq<string>, text: string)
    requires |path| == 2
    ensures FieldAt(v, path, text) <==>
              || (path[0] == IMAGE && path[1] == REPOSITORY && text == v.image.repository && text != "")
              || (path[0] == IMAGE && path[1] == TAG && text == v.image.tag && text != "")
              || (path[0] == IMAGE && path[1] == DIGEST && text == v.image.digest && text != "")
              || (path[0] == MANAGER && path[1] == LOG_FORMAT && text == v.logFormat && text != "")
              || (path[0] == MANAGER && path[1] == LOG_LEVEL && text == v.logLevel && text != "")
              || (path[0] == LEADER_ELECTION && path[1] == ENABLED && v.leaderElection.Some?
                  && text == if v.leaderElection.value then "true" else "false")
  {
    PairIs(path, IMAGE, REPOSITORY);
    PairIs(path, IMAGE, TAG);
    PairIs(path, IMAGE, DIGEST);
    PairIs(path, MANAGER, LOG_FORMAT);
    PairIs(path, MANAGER, LOG_LEVEL);
    PairIs(path, LEADER_ELECTION, ENABLED);
  }

  /** The typed tree at every path: the fields that are set, under the chart's names, and nothing else. */
  lemma TypedFieldsAre(v: Values, path: seq<string>, text: string)
    ensures Get(Typed(v), path) == Some(Leaf(text)) <==> FieldAt(v, path, text)
  {
    hide ImageEntries, ManagerEntries, Get, Typed;
    TypedIsMap(v);
    if |path| == 0 {
      RootIsNoLeaf(v, path);
    } else if |path| == 1 {
      KeysDiffer();
      TypedEntries(v);
      GetOne(Typed(v), path);
      assert path == [path[0]];
    } else if |path| == 2 {
      FieldsAtTwoLevels(v, path, text);
    } else {
      GetDeeper(v, path);
    }
  }

  lemma FieldsAtTwoLevels(v: Values, path: seq<string>, text: string)
    requires |path| == 2
    ensures Get(Typed(v), path) == Some(Leaf(text)) <==> FieldAt(v, path, text)
  {
    hide ImageEntries, ManagerEntries, Get, Typed, FieldAt;
    KeysDiffer();
    TypedIsMap(v);
    TypedEntries(v);
    GetTwo(Typed(v), path);
    FieldAtTwo(v, path, text);
    ImageEntryAt(v.image, path[1], text);
    ManagerEntryAt(v, path[1], text);
  }

  lemma RootIsNoLeaf(v: Values, path: seq<string>)
    requires path == []
    ensures Get(Typed(v), path).Some? && Get(Typed(v), path).value.Map?
  {
  }

  /** A typed field reaches the chart exactly if the extra values have nothing at its path and no leaf above it, or
      the same there; and what they have as a leaf reaches it in any case. */
  lemma FieldSurvivesIff(v: Values, path: seq<string>, text: string)
    requires FieldAt(v, path, text)
    ensures Get(Merge(Typed(v), Map(v.extra)), path) == Some(Leaf(text))
            <==> (Get(Map(v.extra), path).None? && !LeafAbove(Map(v.extra), path))
                 || Get(Map(v.extra), path) == Some(Leaf(text))
  {
    hide Typed, FieldAt;
    TypedFieldsAre(v, path, text);
    EarlierLeafKeptIff(Typed(v), Map(v.extra), path, text);
  }

  /** In particular the pinned image repository. */
  lemma PinnedRepositorySurvivesIff(v: Values)
    requires v.image.repository != ""
    ensures var path := ["image", "repository"];
            Get(Merge(Typed(v), Map(v.extra)), path) == Some(Leaf(v.image.repository))
            <==> (Get(Map(v.extra), path).None? && !LeafAbove(Map(v.extra), path))
                 || Get(Map(v.extra), path) == Some(Leaf(v.image.repository))
  {
    FieldSurvivesIff(v, [IMAGE, REPOSITORY], v.image.repository);
  }

  // -------------------------------------------------------------------------------------------
  // What the flags leave

  /** Every leaf of the last file arrives. */
  lemma LastFileWins(base: Val, layers: seq<Val>, path: seq<string>, text: string)
    requires layers != [] && Get(layers[|layers| - 1], path) == Some(Leaf(text))
    ensures Get(Fold(base, layers), path) == Some(Leaf(text))
  {
    LaterLeafWins(Fold(base, layers[..|layers| - 1]), layers[|layers| - 1], path, text);
  }

  /** A leaf of an earlier file stays as long as no later one has something at its path or a leaf above it. */
  lemma {:induction false} EarlierFileStays(base: Val, layers: seq<Val>, i: nat, path: seq<string>, text: string)
    requires i < |layers| && Get(layers[i], path) == Some(Leaf(text))
    requires forall k :: i < k < |layers| ==> Get(layers[k], path).None? && !LeafAbove(layers[k], path)
    ensures Get(Fold(base, layers), path) == Some(Leaf(text))
    decreases |layers|
  {
    var n := |layers| - 1;
    if i == n {
      LastFileWins(base, layers, path, text);
    } else {
      assert forall k :: 0 <= k < n ==> layers[..n][k] == layers[k];
      EarlierFileStays(base, layers[..n], i, path, text);
      EarlierLeafKeptIff(Fold(base, layers[..n]), layers[n], path, text);
    }
  }

  /** Lines take effect in the order given. */
  lemma {:induction false} LinesInOrder(entries: Entries, first: seq<Assignment>, second: seq<Assignment>)
    ensures Assigned(entries, []) == Some(entries)
    ensures forall line: Assignment :: Assigned(entries, [line]) == line(entries)
    ensures Assigned(entries, first + second) ==
            var tree := Assigned(entries, first); if tree.None? then None else Assigned(tree.value, second)
    decreases |second|
  {
    forall line: Assignment ensures Assigned(entries, [line]) == line(entries) {
      assert [line][..0] == [];
    }
    if second == [] {
      assert first + second == first;
    } else {
      var n := |second| - 1;
      assert (first + second)[..|first + second| - 1] == first + second[..n];
      LinesInOrder(entries, first, second[..n]);
    }
  }

  /** The `--set` lines see the folded files, and the `--set-string` lines what those leave. */
  lemma FlagsInOrder(files: seq<Option<Entries>>, sets: seq<Assignment>, strings: seq<Assignment>)
    requires None !in files
    ensures Overrides(files, sets, strings) == Assigned(Fold(NOTHING, Parsed(files)).entries, sets + strings)
  {
    LinesInOrder(Folded(files), sets, strings);
  }
}
