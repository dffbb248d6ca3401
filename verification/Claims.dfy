/** Which of several primary-sidecar claims on one network is the incumbent
    (internal/controller/cardanodbsync/placement_claims.go, placement.go). */
module Claims {
  import opened Fingerprints
  import opened Text

  datatype Claim = Claim(namespace: string, name: string, created: int, uid: string, network: string, sidecar: bool,
                         deleting: bool, generation: nat, database: DatabaseRef)

  /** The Secret references of spec.database; either mode may be absent. `generated` is the name of the
      Secret the controller would generate for the object. */
  datatype DatabaseRef = DatabaseRef(external: Option<string>, managed: Option<Option<string>>, generated: string)

  // -------------------------------------------------------------------------------------------
  // The order

  /** `primarySidecarClaimLess`. */
  predicate ClaimLess(l: Claim, r: Claim) {
    if l.created != r.created then l.created < r.created
    else if l.uid != r.uid then Less(l.uid, r.uid)
    else if l.namespace != r.namespace then Less(l.namespace, r.namespace)
    else Less(l.name, r.name)
  }

  /** `samePrimarySidecarClaim`. */
  predicate Same(l: Claim, r: Claim) {
    l.namespace == r.namespace && l.name == r.name
  }

  /** A strict order, total on claims with distinct namespace/name. */
  lemma OrderIsStrictAndTotal(a: Claim, b: Claim)
    ensures !(ClaimLess(a, b) && ClaimLess(b, a))
    ensures ClaimLess(a, b) ==> a != b
    ensures !Same(a, b) ==> ClaimLess(a, b) || ClaimLess(b, a)
  {
    LessIsTotal(a.uid, b.uid);
    LessIsTotal(a.namespace, b.namespace);
    LessIsTotal(a.name, b.name);
  }

  lemma OrderIsTransitive(a: Claim, b: Claim, c: Claim)
    requires ClaimLess(a, b) && ClaimLess(b, c)
    ensures ClaimLess(a, c)
  {
    LessIsTotal(a.uid, b.uid);
    LessIsTotal(b.uid, c.uid);
    LessIsTotal(a.namespace, b.namespace);
    LessIsTotal(b.namespace, c.namespace);
    if Less(a.uid, b.uid) && Less(b.uid, c.uid) { LessIsTransitive(a.uid, b.uid, c.uid); LessIsTotal(a.uid, c.uid); }
    if Less(a.namespace, b.namespace) && Less(b.namespace, c.namespace) {
      LessIsTransitive(a.namespace, b.namespace, c.namespace);
      LessIsTotal(a.namespace, c.namespace);
    }
    if Less(a.name, b.name) && Less(b.name, c.name) { LessIsTransitive(a.name, b.name, c.name); }
  }

  predicate Distinct(claims: seq<Claim>) {
    forall i, j :: 0 <= i < j < |claims| ==> !Same(claims[i], claims[j])
  }

  /** `c` comes before every other claim. */
  predicate Leads(c: Claim, claims: seq<Claim>) {
    c in claims && forall d :: d in claims && d != c ==> ClaimLess(c, d)
  }

  /** At most one claim leads, whatever the order of the list. */
  lemma LeaderIsUnique(a: Claim, b: Claim, first: seq<Claim>, second: seq<Claim>)
    requires Leads(a, first) && Leads(b, second)
    requires forall c :: c in first <==> c in second
    ensures a == b
  {
    if a != b {
      OrderIsStrictAndTotal(a, b);
    }
  }

  // -------------------------------------------------------------------------------------------
  // Selection

  predicate Sorted(claims: seq<Claim>) {
    forall i, j :: 0 <= i < j < |claims| ==> ClaimLess(claims[i], claims[j])
  }

  /** Puts `c` where it belongs. */
  function Insert(c: Claim, claims: seq<Claim>): seq<Claim> {
    if claims == [] then [c]
    else if ClaimLess(c, claims[0]) then [c] + claims
    else [claims[0]] + Insert(c, claims[1..])
  }

  lemma {:induction false} InsertKeeps(c: Claim, claims: seq<Claim>)
    ensures multiset(Insert(c, claims)) == multiset(claims) + multiset{c}
  {
    if claims != [] && !ClaimLess(c, claims[0]) {
      InsertKeeps(c, claims[1..]);
      assert claims == [claims[0]] + claims[1..];
    }
  }

  lemma {:induction false} InsertSorts(c: Claim, claims: seq<Claim>)
    requires Sorted(claims) && forall d :: d in claims ==> !Same(c, d)
    ensures Sorted(Insert(c, claims))
  {
    hide ClaimLess, Same;
    if claims == [] {
    } else if ClaimLess(c, claims[0]) {
      forall j | 0 <= j < |claims| ensures ClaimLess(c, claims[j]) {
        if j > 0 { OrderIsTransitive(c, claims[0], claims[j]); }
      }
    } else {
      assert claims[0] in claims;
      OrderIsStrictAndTotal(c, claims[0]);
      var rest := Insert(c, claims[1..]);
      InsertSorts(c, claims[1..]);
      InsertKeeps(c, claims[1..]);
      forall j | 0 <= j < |rest| ensures ClaimLess(claims[0], rest[j]) {
        assert rest[j] in multiset(rest);
        assert rest[j] == c || rest[j] in claims[1..];
      }
    }
  }

  /** `sort.Slice` on a copy, with `primarySidecarClaimLess`. */
  method SortClaims(claims: seq<Claim>) returns (sorted: seq<Claim>)
    requires Distinct(claims)
    ensures Sorted(sorted) && multiset(sorted) == multiset(claims)
  {
    hide ClaimLess, Same;
    sorted := [];
    for i := 0 to |claims|
      invariant Sorted(sorted) && multiset(sorted) == multiset(claims[..i])
    {
      assert claims[..i + 1] == claims[..i] + [claims[i]];
      forall d | d in sorted ensures !Same(claims[i], d) {
        assert d in multiset(sorted);
        assert d in claims[..i];
        SameIsSymmetric(claims[i], d);
      }
      InsertSorts(claims[i], sorted);
      InsertKeeps(claims[i], sorted);
      sorted := Insert(claims[i], sorted);
    }
    assert claims[..|claims|] == claims;
  }

  lemma SameIsSymmetric(a: Claim, b: Claim)
    ensures Same(a, b) == Same(b, a)
  {
  }

  /** `primarySidecarClaimKey`. */
  function ClaimKey(c: Claim): string {
    if c.namespace == "" then c.name else c.namespace + "/" + c.name
  }

  lemma QualifiedKey(c: Claim)
    ensures c.namespace != "" ==> ClaimKey(c) == c.namespace + "/" + c.name
  {
  }

  datatype Selection = Selection(incumbent: Option<Claim>, conflictingPeerKeys: seq<string>)

  /** The selection every caller gets: nothing for no claims, else the leading claim and exactly the keys
      of the others. */
  ghost predicate Selects(s: Selection, claims: seq<Claim>) {
    if claims == [] then s == Selection(None, [])
    else
      && s.incumbent.Some? && Leads(s.incumbent.value, claims)
      && |s.conflictingPeerKeys| == |claims| - 1
      && (forall c :: c in claims && c != s.incumbent.value ==> ClaimKey(c) in s.conflictingPeerKeys)
      && (forall k :: k in s.conflictingPeerKeys ==> exists c :: c in claims && c != s.incumbent.value && ClaimKey(c) == k)
  }

  lemma FirstOfSortedLeads(sorted: seq<Claim>, claims: seq<Claim>)
    requires Sorted(sorted) && multiset(sorted) == multiset(claims) && claims != []
    ensures sorted != [] && Leads(sorted[0], claims)
    ensures forall i :: 1 <= i < |sorted| ==> sorted[i] in claims && sorted[i] != sorted[0]
  {
    hide ClaimLess;
    assert claims[0] in multiset(sorted);
    assert sorted[0] in multiset(sorted);
    forall d | d in claims && d != sorted[0] ensures ClaimLess(sorted[0], d) {
      assert d in multiset(claims);
      assert d in sorted;
    }
    forall i | 1 <= i < |sorted| ensures sorted[i] in claims && sorted[i] != sorted[0] {
      assert sorted[i] in multiset(sorted);
      OrderIsStrictAndTotal(sorted[0], sorted[i]);
    }
  }

  /** `SelectPrimarySidecarClaim`. */
  method SelectPrimarySidecarClaim(claims: seq<Claim>) returns (s: Selection)
    requires Distinct(claims)
    ensures Selects(s, claims)
    ensures forall c :: c in claims && s.incumbent != Some(c) && c.namespace != "" ==>
              c.namespace + "/" + c.name in s.conflictingPeerKeys
  {
    hide ClaimLess, Same, ClaimKey;
    if claims == [] {
      return Selection(None, []);
    }
    var sorted := SortClaims(claims);
    FirstOfSortedLeads(sorted, claims);
    assert |sorted| == |multiset(sorted)| == |multiset(claims)| == |claims|;
    var keys: seq<string> := [];
    for i := 1 to |sorted|
      invariant |keys| == i - 1
      invariant forall j :: 1 <= j < i ==> keys[j - 1] == ClaimKey(sorted[j])
    {
      keys := keys + [ClaimKey(sorted[i])];
    }
    s := Selection(Some(sorted[0]), keys);
    forall c | c in claims && c != sorted[0]
      ensures ClaimKey(c) in keys && (c.namespace != "" ==> c.namespace + "/" + c.name in keys)
    {
      QualifiedKey(c);
      assert c in multiset(claims);
      var j :| 0 <= j < |sorted| && sorted[j] == c;
      assert keys[j - 1] == ClaimKey(c);
    }
    forall k | k in keys ensures exists c :: c in claims && c != sorted[0] && ClaimKey(c) == k {
      var j :| 0 <= j < |keys| && keys[j] == k;
      assert ClaimKey(sorted[j + 1]) == k;
    }
  }

  // -------------------------------------------------------------------------------------------
  // What the selection means

  /** `reconcilePlacement` on a sidecar claim, given the selection. */
  predicate Passes(c: Claim, s: Selection) {
    s.incumbent.None? || Same(c, s.incumbent.value)
  }

  /** The incumbent is the oldest claim; of equally old ones the one with the least UID; of those the
      least namespace and name. */
  lemma IncumbentIsOldest(claims: seq<Claim>, s: Selection, c: Claim)
    requires Selects(s, claims) && c in claims
    ensures var i := s.incumbent.value;
            && i.created <= c.created
            && (i.created == c.created ==> i.uid == c.uid || Less(i.uid, c.uid))
            && (i.created == c.created && i.uid == c.uid ==> i.namespace == c.namespace || Less(i.namespace, c.namespace))
            && (i.created == c.created && i.uid == c.uid && i.namespace == c.namespace ==>
                  i.name == c.name || Less(i.name, c.name))
  {
    if c != s.incumbent.value {
      assert ClaimLess(s.incumbent.value, c);
    }
  }

  /** The order of the list does not matter. */
  lemma SelectionIgnoresOrder(first: seq<Claim>, second: seq<Claim>, s: Selection, t: Selection)
    requires Selects(s, first) && Selects(t, second) && forall c :: c in first <==> c in second
    ensures s.incumbent == t.incumbent
    ensures forall k :: k in s.conflictingPeerKeys <==> k in t.conflictingPeerKeys
  {
    hide ClaimLess, ClaimKey;
    assert first != [] ==> first[0] in first;
    assert second != [] ==> second[0] in second;
    if first != [] {
      LeaderIsUnique(s.incumbent.value, t.incumbent.value, first, second);
    }
  }

  predicate PassesAloneAt(claims: seq<Claim>, s: Selection, i: nat) {
    i < |claims| && forall j :: 0 <= j < |claims| ==> (Passes(claims[j], s) <==> j == i)
  }

  /** Of a non-empty list exactly one claim passes. */
  lemma ExactlyOnePasses(claims: seq<Claim>, s: Selection) returns (i: nat)
    requires claims != [] && Selects(s, claims)
    requires forall i, j :: 0 <= i < j < |claims| ==>
               claims[i].namespace != claims[j].namespace || claims[i].name != claims[j].name
    ensures PassesAloneAt(claims, s, i)
  {
    hide ClaimLess, ClaimKey;
    i :| 0 <= i < |claims| && claims[i] == s.incumbent.value;
    forall j | 0 <= j < |claims| ensures Passes(claims[j], s) <==> j == i {
      if j < i { assert !Same(claims[j], claims[i]); }
      if i < j { assert !Same(claims[i], claims[j]); }
    }
  }

  /** A claim that comes later in the order never displaces the incumbent. */
  lemma LaterClaimKeepsIncumbent(claims: seq<Claim>, s: Selection, c: Claim, t: Selection)
    requires Selects(s, claims) && claims != [] && ClaimLess(s.incumbent.value, c) && Selects(t, claims + [c])
    ensures t.incumbent == s.incumbent
  {
    hide ClaimLess, ClaimKey;
    var a, b := s.incumbent.value, t.incumbent.value;
    assert b in claims + [c];
    assert a in claims + [c];
    if a != b {
      assert ClaimLess(a, b) && ClaimLess(b, a);
      OrderIsStrictAndTotal(a, b);
    }
  }
}
