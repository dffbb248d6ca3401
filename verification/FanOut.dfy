/** Which objects a watch event enqueues (internal/controller/cardanodbsync/controller.go): the peers of a
    placement claim, and the readers of a database Secret. */
module FanOut {
  import opened Fingerprints
  import opened Text
  import opened Claims

  /** A reconcile request. */
  datatype Key = Key(namespace: string, name: string)

  function KeyOf(c: Claim): Key {
    Key(c.namespace, c.name)
  }

  // -------------------------------------------------------------------------------------------
  // Placement peers

  /** The object is a live sidecar claim on this network; the field index holds no empty name. */
  predicate ClaimsOn(c: Claim, namespace: string, network: string) {
    c.namespace == namespace && c.network == network && network != "" && namespace != "" && !c.deleting && c.sidecar
  }

  /** `primarySidecarClaims`: the listed objects that are live sidecar claims, in list order. */
  method PrimarySidecarClaims(objects: seq<Claim>, namespace: string, network: string) returns (claims: seq<Claim>)
    ensures forall c :: c in claims <==> c in objects && ClaimsOn(c, namespace, network)
    ensures forall c :: c in claims <==>
              && c in objects && namespace != "" && network != "" && c.namespace == namespace && c.network == network
              && c.sidecar && !c.deleting
    ensures Distinct(objects) ==> Distinct(claims)
  {
    claims := [];
    if namespace == "" || network == "" {
      return;
    }
    for i := 0 to |objects|
      invariant forall c :: c in claims <==> c in objects[..i] && ClaimsOn(c, namespace, network)
      invariant Distinct(objects) ==> Distinct(claims)
    {
      var candidate := objects[i];
      assert objects[..i + 1] == objects[..i] + [candidate];
      if candidate.namespace != namespace || candidate.network != network || candidate.deleting {
        continue;
      }
      if candidate.sidecar {
        if Distinct(objects) {
          forall c | c in claims ensures !Same(c, candidate) {
            assert c in objects[..i];
          }
        }
        claims := claims + [candidate];
      }
    }
    assert objects[..|objects|] == objects;
  }

  /** `leader` comes first among the live claims on the network. */
  ghost predicate First(leader: Claim, objects: seq<Claim>, namespace: string, network: string) {
    && leader in objects && ClaimsOn(leader, namespace, network)
    && forall c :: c in objects && ClaimsOn(c, namespace, network) && c != leader ==> ClaimLess(leader, c)
  }

  /** The sidecar branch of `reconcilePlacement`: list the claims, select, compare. A claim passes if there is
      no claim at all or it is the first one. */
  ghost predicate PassesAmong(self: Claim, objects: seq<Claim>, network: string) {
    || (forall c :: c in objects ==> !ClaimsOn(c, self.namespace, network))
    || exists leader :: First(leader, objects, self.namespace, network) && Same(self, leader)
  }

  method PassesPlacement(self: Claim, objects: seq<Claim>, network: string) returns (passes: bool)
    requires Distinct(objects)
    ensures passes <==> PassesAmong(self, objects, network)
  {
    hide ClaimLess, ClaimsOn, Same;
    var claims := PrimarySidecarClaims(objects, self.namespace, network);
    var selection := SelectPrimarySidecarClaim(claims);
    if selection.incumbent.None? {
      return true;
    }
    var incumbent := selection.incumbent.value;
    assert First(incumbent, objects, self.namespace, network);
    passes := Same(self, incumbent);
    if PassesAmong(self, objects, network) {
      var leader :| First(leader, objects, self.namespace, network) && Same(self, leader);
      LeaderIsUnique(leader, incumbent, claims, claims);
    }
  }

  /** Two live claims on one network never both pass, whichever order their lists have. */
  lemma AtMostOneClaimPasses(x: Claim, y: Claim, first: seq<Claim>, second: seq<Claim>, network: string)
    requires Distinct(first) && (forall c :: c in first <==> c in second)
    requires x in first && ClaimsOn(x, x.namespace, network) && y in first && ClaimsOn(y, x.namespace, network)
    requires PassesAmong(x, first, network) && PassesAmong(y, second, network)
    ensures x == y
  {
    hide ClaimLess;
    var a :| First(a, first, x.namespace, network) && Same(x, a);
    var b :| First(b, second, y.namespace, network) && Same(y, b);
    assert x.namespace == y.namespace;
    if a != b {
      OrderIsStrictAndTotal(a, b);
    }
    SameIsEqual(first, x, a);
    SameIsEqual(first, y, b);
  }

  lemma SameIsEqual(claims: seq<Claim>, a: Claim, b: Claim)
    requires Distinct(claims) && a in claims && b in claims && Same(a, b)
    ensures a == b
  {
    var i :| 0 <= i < |claims| && claims[i] == a;
    var j :| 0 <= j < |claims| && claims[j] == b;
  }

  datatype Event = Created(item: Claim) | Updated(before: Claim, after: Claim) | Deleted(item: Claim)

  /** `enqueuePlacementPeersForObject` on what the list returns after the event. */
  method EnqueuePlacementPeers(item: Claim, objects: seq<Claim>) returns (keys: set<Key>)
    ensures forall c ::
              c in objects && item.sidecar && ClaimsOn(c, item.namespace, item.network) ==> Key(c.namespace, c.name) in keys
    ensures forall k :: k in keys ==>
              item.sidecar && exists c ::
                c in objects && ClaimsOn(c, item.namespace, item.network) && Key(c.namespace, c.name) == k
  {
    keys := {};
    if !item.sidecar {
      return;
    }
    var claims := PrimarySidecarClaims(objects, item.namespace, item.network);
    for i := 0 to |claims|
      invariant forall j :: 0 <= j < i ==> KeyOf(claims[j]) in keys
      invariant forall k :: k in keys ==>
                  exists c :: c in objects && ClaimsOn(c, item.namespace, item.network) && KeyOf(c) == k
    {
      assert claims[i] in objects;
      keys := keys + {KeyOf(claims[i])};
    }
  }

  /** `placementPeerEventHandler`. */
  method HandlePlacementEvent(e: Event, objects: seq<Claim>) returns (keys: set<Key>)
    ensures e.Updated? && e.before.generation == e.after.generation ==> keys == {}
    ensures forall c, o ::
              c in objects && o in Triggers(e) && ClaimsOn(c, o.namespace, o.network) ==> Key(c.namespace, c.name) in keys
  {
    match e {
      case Created(item) =>
        keys := EnqueuePlacementPeers(item, objects);
      case Updated(before, after) =>
        if before.generation == after.generation {
          return {};
        }
        keys := EnqueuePlacementPeers(before, objects);
        var more := EnqueuePlacementPeers(after, objects);
        keys := keys + more;
      case Deleted(item) =>
        keys := EnqueuePlacementPeers(item, objects);
    }
  }

  /** The versions of the object whose network's peers are enqueued. */
  function Triggers(e: Event): set<Claim> {
    match e
    case Created(o) => if o.sidecar then {o} else {}
    case Deleted(o) => if o.sidecar then {o} else {}
    case Updated(b, a) =>
      if b.generation == a.generation then {}
      else (if b.sidecar then {b} else {}) + if a.sidecar then {a} else {}
  }

  /** `after` is `before` with the event applied. */
  ghost predicate Applies(e: Event, before: set<Claim>, after: set<Claim>) {
    match e
    case Created(o) => after == before + {o}
    case Deleted(o) => after == before - {o}
    case Updated(b, a) => b in before && after == before - {b} + {a} && Same(a, b) && b.generation != a.generation
  }

  function ClaimSet(objects: set<Claim>, namespace: string, network: string): set<Claim> {
    set c | c in objects && ClaimsOn(c, namespace, network)
  }

  lemma DifferenceOf(a: set<Claim>, b: set<Claim>) returns (c: Claim)
    requires a != b
    ensures c in a + b && !(c in a && c in b)
  {
    if a <= b {
      assert !(b <= a);
      c :| c in b && c !in a;
    } else {
      c :| c in a && c !in b;
    }
  }

  /** Fan-out completeness: after any create, delete or generation-changing update that alters the claim
      set of a network, the claim that is now its incumbent, and so is every other, is enqueued. */
  lemma ChangedClaimSetTriggers(e: Event, before: set<Claim>, after: set<Claim>, namespace: string, network: string)
    requires Applies(e, before, after)
    requires ClaimSet(before, namespace, network) != ClaimSet(after, namespace, network)
    ensures exists o :: o in Triggers(e) && o.namespace == namespace && o.network == network
  {
    var b, a := ClaimSet(before, namespace, network), ClaimSet(after, namespace, network);
    var c := DifferenceOf(b, a);
    assert c in Triggers(e);
  }

  function Members(objects: seq<Claim>): set<Claim> {
    set c | c in objects
  }

  /** The same for the list the handler reads: its whole claim set is enqueued, the incumbent included. */
  method IncumbentIsEnqueued(e: Event, before: set<Claim>, objects: seq<Claim>, namespace: string, network: string)
    returns (keys: set<Key>)
    requires Applies(e, before, Members(objects))
    requires ClaimSet(before, namespace, network) != ClaimSet(Members(objects), namespace, network)
    ensures forall c :: c in objects && ClaimsOn(c, namespace, network) ==> Key(c.namespace, c.name) in keys
  {
    keys := HandlePlacementEvent(e, objects);
    ChangedClaimSetTriggers(e, before, Members(objects), namespace, network);
  }

  // -------------------------------------------------------------------------------------------
  // Secret readers

  /** The external-Secret index. */
  function ExternalIndex(d: DatabaseRef): Option<string> {
    if d.external.None? || d.external.value == "" then None else d.external
  }

  /** The managed-Secret index: the provided name, or the generated one. */
  function ManagedIndex(d: DatabaseRef): Option<string> {
    if d.managed.None? then None
    else if d.managed.value.None? then Some(d.generated)
    else if d.managed.value.value == "" then None
    else d.managed.value
  }

  /** The Secret `resolveDatabase` reads, if it comes to reading one. */
  function SecretRead(d: DatabaseRef): Option<string> {
    if d.external.Some? && d.managed.None? then if d.external.value == "" then None else d.external
    else if d.managed.Some? && d.external.None? then
      if d.managed.value.None? then Some(d.generated)
      else if TrimSpace(d.managed.value.value) == "" then None
      else d.managed.value
    else None
  }

  /** `cardanoDBSyncsForDatabaseSecret`, both lists succeeding. */
  method DBSyncsForDatabaseSecret(objects: seq<Claim>, namespace: string, name: string) returns (requests: set<Key>)
    ensures forall k :: k in requests <==>
              exists c :: c in objects && c.namespace == namespace && Key(c.namespace, c.name) == k
                          && (ExternalIndex(c.database) == Some(name) || ManagedIndex(c.database) == Some(name))
    ensures forall c :: c in objects && c.namespace == namespace && SecretRead(c.database) == Some(name) ==>
              Key(c.namespace, c.name) in requests
    ensures forall k :: k in requests && TrimSpace(name) != "" ==>
              exists c :: c in objects && c.namespace == namespace && Key(c.namespace, c.name) == k
                          && (SecretRead(c.database) == Some(name) || (c.database.external.Some? && c.database.managed.Some?))
    ensures forall c ::
              c in objects && c.namespace == namespace && name != ""
              && (c.database.external == Some(name) || c.database.managed == Some(Some(name))) ==>
                Key(c.namespace, c.name) in requests
    ensures forall c ::
              c in objects && c.namespace == namespace && c.database.managed == Some(None) && c.database.generated == name ==>
                Key(c.namespace, c.name) in requests
  {
    hide TrimSpace;
    requests := {};
    for i := 0 to |objects|
      invariant forall k :: k in requests <==> exists c :: c in objects[..i] && c.namespace == namespace && KeyOf(c) == k
                                                           && ExternalIndex(c.database) == Some(name)
    {
      assert objects[..i + 1] == objects[..i] + [objects[i]];
      if objects[i].namespace == namespace && ExternalIndex(objects[i].database) == Some(name) {
        requests := requests + {KeyOf(objects[i])};
      }
    }
    assert objects[..|objects|] == objects;
    ghost var external := requests;
    for i := 0 to |objects|
      invariant forall k :: k in requests <==> k in external || exists c :: c in objects[..i] && c.namespace == namespace
                                                                 && KeyOf(c) == k && ManagedIndex(c.database) == Some(name)
    {
      assert objects[..i + 1] == objects[..i] + [objects[i]];
      if objects[i].namespace == namespace && ManagedIndex(objects[i].database) == Some(name) {
        requests := requests + {KeyOf(objects[i])};
      }
    }
    forall c | c in objects ensures IndexedAsRead(c.database, name) {
      IndexesCoverReads(c.database, name);
    }
  }

  /** What `IndexesCoverReads` says of one object and one Secret. */
  predicate IndexedAsRead(d: DatabaseRef, name: string) {
    var indexed := ExternalIndex(d) == Some(name) || ManagedIndex(d) == Some(name);
    && (SecretRead(d) == Some(name) ==> indexed)
    && (indexed && TrimSpace(name) != "" ==> SecretRead(d) == Some(name) || (d.external.Some? && d.managed.Some?))
  }

  /** The indexes cover the reads: whatever Secret an object's reconcile reads is indexed for it, and an
      object with one database mode is indexed for nothing it would not read, save a provided name of
      blanks. */
  lemma IndexesCoverReads(d: DatabaseRef, name: string)
    ensures SecretRead(d) == Some(name) ==> ExternalIndex(d) == Some(name) || ManagedIndex(d) == Some(name)
    ensures (d.external.Some? != d.managed.Some?) && (ExternalIndex(d) == Some(name) || ManagedIndex(d) == Some(name)) ==>
              SecretRead(d) == Some(name) || (TrimSpace(name) == "" && SecretRead(d).None?)
  {
  }
}
