/** Container paths of the localnet planner: `path.Clean` on rooted paths, `path.Join`, and the
    normalization built on them. */
module ContainerPaths {
  import opened Fingerprints
  import opened Text

  // -------------------------------------------------------------------------------------------
  // Rooted paths

  /** The elements between slashes. */
  function Split(s: string, element: string): seq<string>
    decreases |s|
  {
    if s == "" then [element]
    else if s[0] == '/' then [element] + Split(s[1..], "")
    else Split(s[1..], element + [s[0]])
  }

  /** Drops empty and "." elements and lets ".." take back the element before it, if any. */
  function Resolve(elements: seq<string>, done: seq<string>): seq<string>
    decreases |elements|
  {
    if elements == [] then done
    else if elements[0] == "" || elements[0] == "." then Resolve(elements[1..], done)
    else if elements[0] == ".." then Resolve(elements[1..], if done == [] then [] else done[..|done| - 1])
    else Resolve(elements[1..], done + [elements[0]])
  }

  function Slashed(elements: seq<string>): string {
    if elements == [] then "" else "/" + elements[0] + Slashed(elements[1..])
  }

  function Rooted(elements: seq<string>): string {
    if elements == [] then "/" else Slashed(elements)
  }

  predicate IsRooted(s: string) {
    s != "" && s[0] == '/'
  }

  /** The elements that are left of a rooted path. */
  function Elements(s: string): seq<string> {
    Resolve(Split(s, ""), [])
  }

  /** `path.Clean` on a rooted path. */
  function Clean(s: string): (r: string)
    requires IsRooted(s)
    ensures IsRooted(r)
  {
    Rooted(Elements(s))
  }

  predicate Proper(element: string) {
    element != "" && element != "." && element != ".." && '/' !in element
  }

  predicate AllProper(elements: seq<string>) {
    forall i :: 0 <= i < |elements| ==> Proper(elements[i])
  }

  predicate NoSlashes(elements: seq<string>) {
    forall i :: 0 <= i < |elements| ==> '/' !in elements[i]
  }

  lemma {:induction false} SplitLeavesNoSlashes(s: string, element: string)
    requires '/' !in element
    ensures NoSlashes(Split(s, element))
    decreases |s|
  {
    if s == "" {
    } else if s[0] == '/' {
      SplitLeavesNoSlashes(s[1..], "");
    } else {
      SplitLeavesNoSlashes(s[1..], element + [s[0]]);
    }
  }

  lemma {:induction false} ResolveLeavesProper(elements: seq<string>, done: seq<string>)
    requires NoSlashes(elements) && AllProper(done)
    ensures AllProper(Resolve(elements, done))
    decreases |elements|
  {
    if elements != [] {
      assert '/' !in elements[0];
      if elements[0] == "" || elements[0] == "." { ResolveLeavesProper(elements[1..], done); }
      else if elements[0] == ".." { ResolveLeavesProper(elements[1..], if done == [] then [] else done[..|done| - 1]); }
      else { ResolveLeavesProper(elements[1..], done + [elements[0]]); }
    }
  }

  lemma {:induction false} SplitElement(element: string, rest: string, before: string)
    requires '/' !in element
    ensures Split(element + rest, before) == Split(rest, before + element)
    decreases |element|
  {
    if element == "" {
      assert element + rest == rest && before + element == before;
    } else {
      assert (element + rest)[1..] == element[1..] + rest;
      SplitElement(element[1..], rest, before + [element[0]]);
      assert before + [element[0]] + element[1..] == before + element;
    }
  }

  lemma SlashedTail(elements: seq<string>)
    requires elements != []
    ensures var s := Slashed(elements); s != "" && s[0] == '/' && s[1..] == elements[0] + Slashed(elements[1..])
  {
    var rest := Slashed(elements[1..]);
    assert "/" + elements[0] + rest == "/" + (elements[0] + rest);
  }

  lemma {:induction false} SplitSlashed(elements: seq<string>, before: string)
    requires AllProper(elements)
    ensures Split(Slashed(elements), before) == [before] + elements
  {
    if elements != [] {
      var rest := Slashed(elements[1..]);
      SlashedTail(elements);
      assert Proper(elements[0]);
      SplitElement(elements[0], rest, "");
      assert "" + elements[0] == elements[0];
      SplitSlashed(elements[1..], elements[0]);
      assert [before] + ([elements[0]] + elements[1..]) == [before] + elements;
    }
  }

  lemma {:induction false} ResolveKeepsProper(elements: seq<string>, done: seq<string>)
    requires AllProper(elements)
    ensures Resolve(elements, done) == done + elements
    decreases |elements|
  {
    if elements != [] {
      assert Proper(elements[0]);
      ResolveKeepsProper(elements[1..], done + [elements[0]]);
      assert done + [elements[0]] + elements[1..] == done + elements;
    }
  }

  lemma ElementsAreProper(s: string)
    ensures AllProper(Elements(s))
  {
    SplitLeavesNoSlashes(s, "");
    ResolveLeavesProper(Split(s, ""), []);
  }

  lemma ElementsOfRooted(elements: seq<string>)
    requires AllProper(elements)
    ensures Elements(Rooted(elements)) == elements
  {
    if elements == [] {
      assert "/"[1..] == "";
      assert Split("/", "") == [""] + Split("", "");
      assert Resolve(["", ""], []) == Resolve(["", ""][1..], []);
    } else {
      SplitSlashed(elements, "");
      var parts := [""] + elements;
      assert parts[1..] == elements;
      assert Resolve(parts, []) == Resolve(elements, []);
      ResolveKeepsProper(elements, []);
      assert [] + elements == elements;
    }
  }

  /** A cleaned path is clean, and it is made of proper elements only. */
  lemma CleanIdempotent(s: string)
    requires IsRooted(s)
    ensures Clean(Clean(s)) == Clean(s)
    ensures Elements(Clean(s)) == Elements(s) && AllProper(Elements(s))
  {
    ElementsAreProper(s);
    ElementsOfRooted(Elements(s));
  }

  lemma {:induction false} SplitJoin(s: string, name: string, before: string)
    requires '/' !in name
    ensures Split(s + "/" + name, before) == Split(s, before) + [name]
    decreases |s|
  {
    if s == "" {
      assert s + "/" + name == "/" + name && ("/" + name)[1..] == name;
      SplitElement(name, "", "");
      assert name + "" == name && "" + name == name;
    } else {
      assert (s + "/" + name)[1..] == s[1..] + "/" + name;
      if s[0] == '/' {
        SplitJoin(s[1..], name, "");
        assert [before] + (Split(s[1..], "") + [name]) == [before] + Split(s[1..], "") + [name];
      } else {
        SplitJoin(s[1..], name, before + [s[0]]);
      }
    }
  }

  lemma {:induction false} ResolveLast(elements: seq<string>, name: string, done: seq<string>)
    requires Proper(name)
    ensures Resolve(elements + [name], done) == Resolve(elements, done) + [name]
    decreases |elements|
  {
    if elements == [] {
      assert [name][1..] == [] && elements + [name] == [name];
    } else {
      assert (elements + [name])[1..] == elements[1..] + [name];
      if elements[0] == "" || elements[0] == "." { ResolveLast(elements[1..], name, done); }
      else if elements[0] == ".." { ResolveLast(elements[1..], name, if done == [] then [] else done[..|done| - 1]); }
      else { ResolveLast(elements[1..], name, done + [elements[0]]); }
    }
  }

  /** `path.Join` of a rooted directory and a name. */
  function Join(dir: string, name: string): (r: string)
    requires IsRooted(dir)
    ensures IsRooted(r)
  {
    Clean(dir + "/" + name)
  }

  /** The joined path lies directly in the directory. */
  lemma JoinAppends(dir: string, name: string)
    requires IsRooted(dir) && Proper(name)
    ensures Elements(Join(dir, name)) == Elements(dir) + [name]
    ensures Join(dir, name) == Rooted(Elements(dir) + [name])
  {
    CleanIdempotent(dir + "/" + name);
    SplitJoin(dir, name, "");
    ResolveLast(Split(dir, ""), name, []);
  }

  lemma {:induction false} ResolveParent(elements: seq<string>, done: seq<string>)
    ensures var r := Resolve(elements, done); Resolve(elements + [".."], done) == if r == [] then [] else r[..|r| - 1]
    decreases |elements|
  {
    if elements == [] {
      assert [".."][1..] == [] && elements + [".."] == [".."];
    } else {
      assert (elements + [".."])[1..] == elements[1..] + [".."];
      if elements[0] == "" || elements[0] == "." { ResolveParent(elements[1..], done); }
      else if elements[0] == ".." { ResolveParent(elements[1..], if done == [] then [] else done[..|done| - 1]); }
      else { ResolveParent(elements[1..], done + [elements[0]]); }
    }
  }

  lemma {:induction false} ResolveSelf(elements: seq<string>, done: seq<string>)
    ensures Resolve(elements + ["."], done) == Resolve(elements, done)
    decreases |elements|
  {
    if elements == [] {
      assert ["."][1..] == [] && elements + ["."] == ["."];
    } else {
      assert (elements + ["."])[1..] == elements[1..] + ["."];
      if elements[0] == "" || elements[0] == "." { ResolveSelf(elements[1..], done); }
      else if elements[0] == ".." { ResolveSelf(elements[1..], if done == [] then [] else done[..|done| - 1]); }
      else { ResolveSelf(elements[1..], done + [elements[0]]); }
    }
  }

  /** "." stays in the directory, ".." leaves it for its parent, the root being its own. */
  lemma DotsAreResolved(dir: string)
    ensures Elements(dir + "/" + ".") == Elements(dir)
    ensures var e := Elements(dir); Elements(dir + "/" + "..") == if e == [] then [] else e[..|e| - 1]
  {
    SplitJoin(dir, ".", "");
    ResolveSelf(Split(dir, ""), []);
    SplitJoin(dir, "..", "");
    ResolveParent(Split(dir, ""), []);
  }

  /** The root is the empty path, and a joined name can be taken back. */
  lemma RootAndParent(dir: string, name: string)
    requires IsRooted(dir) && Proper(name)
    ensures Elements("/") == []
    ensures Clean(Join(dir, name) + "/" + "..") == Clean(dir)
  {
    assert Rooted([]) == "/";
    ElementsOfRooted([]);
    JoinAppends(dir, name);
    DotsAreResolved(Join(dir, name));
    assert (Elements(dir) + [name])[..|Elements(dir)|] == Elements(dir);
  }

  // -------------------------------------------------------------------------------------------
  // Normalization

  /** `normalizeContainerPath`: nothing for a path that is not absolute. */
  function NormalPath(value: string): Option<string> {
    var trimmed := TrimSpace(value);
    if IsRooted(trimmed) then Some(Clean(trimmed)) else None
  }

  predicate EndsInSpace(s: string) {
    s != "" && IsSpace(s[|s| - 1])
  }

  /** The last element left of the path, if any, does not end in whitespace. */
  predicate LastElementIsTrimmed(value: string) {
    var elements := Elements(TrimSpace(value));
    elements == [] || !EndsInSpace(elements[|elements| - 1])
  }

  lemma {:induction false} SlashedEnd(elements: seq<string>)
    requires elements != [] && AllProper(elements)
    ensures Slashed(elements) != ""
    ensures EndsInSpace(Slashed(elements)) <==> EndsInSpace(elements[|elements| - 1])
  {
    assert Proper(elements[0]);
    if |elements| > 1 {
      SlashedEnd(elements[1..]);
    } else {
      assert Slashed(elements[1..]) == "";
    }
  }

  /** Normalizing a normalized path changes nothing exactly if the last element left of the given path
      does not end in whitespace. */
  lemma NormalPathSettlesIff(value: string)
    requires NormalPath(value).Some?
    ensures NormalPath(NormalPath(value).value) == NormalPath(value) <==> LastElementIsTrimmed(value)
  {
    hide TrimSpace, Elements;
    var elements := Elements(TrimSpace(value));
    CleanIdempotent(TrimSpace(value));
    if elements != [] {
      SlashedEnd(elements);
    }
    if !LastElementIsTrimmed(value) {
      CleanOfShorter(NormalPath(value).value);
    }
  }

  lemma {:induction false} ResolveSkipsEmpty(elements: seq<string>, done: seq<string>)
    ensures Resolve(elements + [""], done) == Resolve(elements, done)
    decreases |elements|
  {
    if elements == [] {
      assert [""][1..] == [] && elements + [""] == [""];
    } else {
      assert (elements + [""])[1..] == elements[1..] + [""];
      if elements[0] == "" || elements[0] == "." { ResolveSkipsEmpty(elements[1..], done); }
      else if elements[0] == ".." { ResolveSkipsEmpty(elements[1..], if done == [] then [] else done[..|done| - 1]); }
      else { ResolveSkipsEmpty(elements[1..], done + [elements[0]]); }
    }
  }

  lemma TrailingSlashIsDropped(s: string)
    ensures Elements(s + "/") == Elements(s)
  {
    SplitJoin(s, "", "");
    assert s + "/" + "" == s + "/";
    ResolveSkipsEmpty(Split(s, ""), []);
  }

  lemma OneElement(element: string)
    requires Proper(element)
    ensures Elements("/" + element) == [element]
  {
    ElementsOfRooted([element]);
    OneElementIsClean(element);
  }

  /** A trailing slash hides whitespace before it, and each normalization of such a path drops one more
      thing. */
  lemma TrailingSlashHidesWhitespace(word: string)
    requires Proper(word) && Trimmed(word)
    ensures NormalPath("/" + word + " /") == Some("/" + word + " ")
    ensures NormalPath("/" + word + " ") == Some("/" + word)
  {
    hide TrimSpace, Elements;
    var element := word + " ";
    assert "/" + word + " /" == "/" + element + "/" && "/" + word + " " == "/" + element;
    assert element[|word|] == ' ' && |element| > 1;
    assert '/' !in element;
    TrailingSlashIsDropped("/" + element);
    OneElement(element);
    OneElementIsClean(element);
    TrimAbsorbsPadding("", "/" + word, " ");
    assert "" + ("/" + word) + " " == "/" + word + " ";
    OneElement(word);
    OneElementIsClean(word);
  }

  lemma OneElementIsClean(element: string)
    ensures Rooted([element]) == "/" + element
  {
    assert Slashed([element]) == "/" + element + Slashed([element][1..]);
    assert "/" + element + "" == "/" + element;
  }

  /** So a normalized path can be the input of a different one. */
  lemma NormalPathNeedNotSettle()
    ensures NormalPath("/state /") == Some("/state ") && NormalPath("/state ") == Some("/state")
  {
    hide NormalPath;
    var word := "state";
    TrailingSlashHidesWhitespace(word);
    assert "/" + word + " /" == "/state /" && "/" + word + " " == "/state " && "/" + word == "/state";
  }

  lemma CleanOfShorter(cleaned: string)
    requires IsRooted(cleaned) && !Trimmed(cleaned)
    ensures NormalPath(cleaned) != Some(cleaned)
  {
    hide TrimSpace;
    var t := TrimSpace(cleaned);
    TrimSpaceIsShorter(cleaned);
    if IsRooted(t) {
      CleanIsNoLonger(t);
    }
  }

  lemma TrimSpaceIsShorter(s: string)
    requires !Trimmed(s)
    ensures |TrimSpace(s)| < |s|
  {
    TrimLeftIsSuffix(s);
    TrimRightIsPrefix(TrimLeft(s));
    assert |TrimSpace(s)| == |s| ==> TrimSpace(s) == s;
  }

  function Length(elements: seq<string>): nat {
    if elements == [] then 0 else 1 + |elements[0]| + Length(elements[1..])
  }

  lemma {:induction false} SlashedLength(elements: seq<string>)
    ensures |Slashed(elements)| == Length(elements)
  {
    if elements != [] {
      SlashedLength(elements[1..]);
    }
  }

  lemma {:induction false} LengthAppend(elements: seq<string>, element: string)
    ensures Length(elements + [element]) == Length(elements) + 1 + |element|
  {
    if elements != [] {
      assert (elements + [element])[1..] == elements[1..] + [element];
      LengthAppend(elements[1..], element);
    } else {
      assert ([] + [element])[1..] == [];
    }
  }

  lemma {:induction false} ResolveIsNoLonger(elements: seq<string>, done: seq<string>)
    ensures Length(Resolve(elements, done)) <= Length(done) + Length(elements)
    decreases |elements|
  {
    if elements != [] {
      if elements[0] == "" || elements[0] == "." {
        ResolveIsNoLonger(elements[1..], done);
      } else if elements[0] == ".." {
        var shorter := if done == [] then [] else done[..|done| - 1];
        ResolveIsNoLonger(elements[1..], shorter);
        if done != [] {
          LengthAppend(shorter, done[|done| - 1]);
          assert done == shorter + [done[|done| - 1]];
        }
      } else {
        LengthAppend(done, elements[0]);
        ResolveIsNoLonger(elements[1..], done + [elements[0]]);
      }
    }
  }

  lemma {:induction false} SplitLength(s: string, element: string)
    ensures Length(Split(s, element)) == |s| + |element| + 1
    decreases |s|
  {
    if s == "" {
    } else if s[0] == '/' {
      SplitLength(s[1..], "");
      assert Split(s, element)[1..] == Split(s[1..], "");
    } else {
      SplitLength(s[1..], element + [s[0]]);
    }
  }

  lemma CleanIsNoLonger(s: string)
    requires IsRooted(s)
    ensures |Clean(s)| <= |s|
  {
    var elements := Split(s, "");
    assert elements == [""] + Split(s[1..], "");
    SplitLength(s[1..], "");
    ResolveIsNoLonger(elements[1..], []);
    assert Resolve(elements, []) == Resolve(elements[1..], []);
    SlashedLength(Resolve(elements, []));
  }
}
