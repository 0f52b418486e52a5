/** The whole registry as one canonical byte string (src/model/canonical.cpp), the payload of a snapshot. */
module RegistryCodec {
  import opened Model
  import opened Names
  import opened Wire
  import opened Canonical

  const MODEL_ENCODING_VERSION := 1

  // ---- what `put_*` asks of a record, room aside ----

  predicate StorableCluster(c: Cluster) {
    && c.id != [] && c.domain != [] && |c.endpoints| <= MAX_ENDPOINTS_PER_CLUSTER
    && (forall e <- c.endpoints :: c.endpoints[e].cluster == c.id && c.endpoints[e].reserved <= c.endpoints[e].capacity)
  }

  predicate StorableLink(l: Link) { l.id != [] && l.a != [] && l.b != [] && l.a != l.b && l.reserved <= l.capacity }

  predicate StorablePath(p: Path) { p.id != [] && p.a != [] && p.b != [] && p.hops != [] && |p.hops| <= MAX_PATH_HOPS }

  predicate StorablePolicy(p: PolicyRule) { p.id != [] && |p.id| <= MAX_NAME_LENGTH && p.owner != [] }

  predicate StorableContract(c: Contract) {
    && c.id != 0 && c.parties.first.cluster != [] && c.parties.second.cluster != []
    && c.parties.first.cluster != c.parties.second.cluster && c.capacity <= MAX_CAPACITY
  }

  predicate StorableGrant(g: Grant) { g.id != 0 && g.contract != 0 && g.capacity <= MAX_CAPACITY }

  predicate StorableReservation(v: Reservation) { v.id != 0 }

  predicate Contiguous(audit: seq<Audit>) {
    forall i | 0 < i < |audit| :: audit[i].sequence == audit[i - 1].sequence + 1
  }

  // ---- complete registries: every record can be written and read back ----

  /** A bounded map whose records are all in order. */
  predicate Filled<K, V>(m: map<K, V>, bound: nat, ok: (K, V) -> bool) {
    |m| <= bound && forall k <- m :: ok(k, m[k])
  }

  lemma InsertKeepsFilled<K, V>(m: map<K, V>, bound: nat, ok: (K, V) -> bool, k: K, v: V)
    requires Filled(m, bound, ok) && HasRoom(m, k, bound) && ok(k, v)
    ensures Filled(m[k := v], bound, ok)
  {
    assert m[k := v].Keys == m.Keys + {k};
  }

  lemma EraseKeepsFilled<K, V>(m: map<K, V>, bound: nat, ok: (K, V) -> bool, k: K)
    requires Filled(m, bound, ok) && k in m
    ensures Filled(m - {k}, bound, ok)
  {
    assert (m - {k}).Keys == m.Keys - {k};
  }

  predicate WholeCluster(k: Name, x: Cluster) { x.id == k && CompleteCluster(x) && StorableCluster(x) }
  predicate CompleteClusters(m: map<Name, Cluster>) { Filled(m, MAX_CLUSTERS, WholeCluster) }

  predicate WholeLink(k: Name, x: Link) { x.id == k && CompleteLink(x) && StorableLink(x) }
  predicate CompleteLinks(m: map<Name, Link>) { Filled(m, MAX_EDGES, WholeLink) }

  predicate WholePath(k: Name, x: Path) { x.id == k && CompletePath(x) && StorablePath(x) }
  predicate CompletePaths(m: map<Name, Path>) { Filled(m, MAX_PATHS, WholePath) }

  predicate WholePolicy(k: Name, x: PolicyRule) { x.id == k && CompletePolicy(x) && StorablePolicy(x) }
  predicate CompletePolicies(m: map<Name, PolicyRule>) { Filled(m, MAX_POLICY_RULES, WholePolicy) }

  predicate WholeContract(k: Uuid, x: Contract) { x.id == k && CompleteContract(x) && StorableContract(x) }
  predicate CompleteContracts(m: map<Uuid, Contract>) { Filled(m, MAX_CONTRACTS, WholeContract) }

  predicate WholeGrant(k: Uuid, x: Grant) { x.id == k && CompleteGrant(x) && StorableGrant(x) }
  predicate CompleteGrants(m: map<Uuid, Grant>) { Filled(m, MAX_GRANTS, WholeGrant) }

  predicate WholeReservation(k: Uuid, x: Reservation) { x.id == k && CompleteReservation(x) && StorableReservation(x) }
  predicate CompleteReservations(m: map<Uuid, Reservation>) { Filled(m, MAX_RESERVATIONS, WholeReservation) }

  predicate CompleteTrail(audit: seq<Audit>) {
    |audit| <= MAX_AUDIT_RECORDS && Contiguous(audit) && forall i | 0 <= i < |audit| :: CompleteAudit(audit[i])
  }
  predicate CompleteRegistry(r: Registry) {
    && CompleteClusters(r.clusters) && CompleteLinks(r.links) && CompletePaths(r.paths) && CompletePolicies(r.policies)
    && CompleteContracts(r.contracts) && CompleteGrants(r.grants) && CompleteReservations(r.reservations)
    && CompleteTrail(r.audit)
  }

  // ---- keys in iteration order ----

  ghost function Least(s: set<Uuid>): (m: Uuid)
    requires s != {}
    ensures m in s && forall x <- s :: m <= x
    decreases |s|
  {
    var x :| x in s;
    if s == {x} then x
    else
      assert s - {x} != {};
      var y := Least(s - {x});
      assert forall z <- s :: z == x || z in s - {x};
      if x <= y then x else y
  }

  ghost function SortedIds(s: set<Uuid>): (keys: seq<Uuid>)
    ensures forall i, j | 0 <= i < j < |keys| :: keys[i] < keys[j]
    ensures forall x :: x in keys <==> x in s
    decreases |s|
  {
    if s == {} then []
    else
      var m := Least(s);
      var rest := SortedIds(s - {m});
      assert forall i | 0 <= i < |rest| :: rest[i] in s - {m};
      [m] + rest
  }

  lemma IdsEnumerate(s: set<Uuid>)
    ensures Enumerates(SortedIds(s), s)
  {
    var keys := SortedIds(s);
    assert forall i | 0 <= i < |keys| :: keys[i] in keys;
  }

  // ---- one group per kind of record; `r` is the registry read so far ----

  function DecodeClusters(b: Bytes, r: Registry): Parsed<Registry> {
    TakeGroup(b, MAX_CLUSTERS, DecodeCluster, PutCluster, r)
  }
  function DecodeLinks(b: Bytes, r: Registry): Parsed<Registry> { TakeGroup(b, MAX_EDGES, DecodeLink, PutLink, r) }
  function DecodePaths(b: Bytes, r: Registry): Parsed<Registry> { TakeGroup(b, MAX_PATHS, DecodePath, PutPath, r) }
  function DecodePolicies(b: Bytes, r: Registry): Parsed<Registry> {
    TakeGroup(b, MAX_POLICY_RULES, DecodePolicy, PutPolicy, r)
  }
  function DecodeContracts(b: Bytes, r: Registry): Parsed<Registry> {
    TakeGroup(b, MAX_CONTRACTS, DecodeContract, PutContract, r)
  }
  function DecodeGrants(b: Bytes, r: Registry): Parsed<Registry> { TakeGroup(b, MAX_GRANTS, DecodeGrant, PutGrant, r) }
  function DecodeReservations(b: Bytes, r: Registry): Parsed<Registry> {
    TakeGroup(b, MAX_RESERVATIONS, DecodeReservation, PutReservation, r)
  }
  function DecodeTrail(b: Bytes, r: Registry): Parsed<Registry> {
    TakeGroup(b, MAX_AUDIT_RECORDS, DecodeAudit, AppendAudit, r)
  }

  function ClustersSlot(r: Registry): map<Name, Cluster> -> Registry { (m: map<Name, Cluster>) => r.(clusters := m) }
  function ClusterKey(c: Cluster): Name { c.id }

  lemma ClustersInsert(r: Registry)
    ensures Inserts(PutCluster, ClustersSlot(r), ClusterKey, StorableCluster, MAX_CLUSTERS)
  {
  }

  lemma ClusterRoundTrip(c: Cluster)
    requires CompleteCluster(c)
    ensures RoundTrip(c, EncodeCluster, DecodeCluster)
  {
    forall rest: Bytes ensures DecodeCluster(EncodeCluster(c, rest)) == Success((c, rest)) {}
  }

  ghost function EncodeClusters(m: map<Name, Cluster>, r: Registry, rest: Bytes): (b: Bytes)
    requires CompleteClusters(m) && r.clusters == map[]
    ensures DecodeClusters(b, r) == Success((r.(clusters := m), rest))
  {
    var keys := SortedNames(m.Keys);
    SortedEnumerates(m.Keys);
    ClustersInsert(r);
    assert forall k <- m :: RoundTrip(m[k], EncodeCluster, DecodeCluster) by {
      forall k | k in m ensures RoundTrip(m[k], EncodeCluster, DecodeCluster) {
        assert WholeCluster(k, m[k]);
        ClusterRoundTrip(m[k]);
      }
    }
    assert ClustersSlot(r)(map[]) == r;
    assert forall k <- m :: WholeCluster(k, m[k]);
    MapRoundTrip(m, keys, MAX_CLUSTERS, EncodeCluster, DecodeCluster, PutCluster, ClustersSlot(r), ClusterKey,
                 StorableCluster, rest);
    PutGroup(Records(m, keys), EncodeCluster, DecodeCluster, rest)
  }

  function LinksSlot(r: Registry): map<Name, Link> -> Registry { (m: map<Name, Link>) => r.(links := m) }
  function LinkKey(l: Link): Name { l.id }

  lemma LinksInsert(r: Registry)
    ensures Inserts(PutLink, LinksSlot(r), LinkKey, StorableLink, MAX_EDGES)
  {
  }

  lemma LinkRoundTrip(l: Link)
    requires CompleteLink(l)
    ensures RoundTrip(l, EncodeLink, DecodeLink)
  {
    forall rest: Bytes ensures DecodeLink(EncodeLink(l, rest)) == Success((l, rest)) {}
  }

  ghost function EncodeLinks(m: map<Name, Link>, r: Registry, rest: Bytes): (b: Bytes)
    requires CompleteLinks(m) && r.links == map[]
    ensures DecodeLinks(b, r) == Success((r.(links := m), rest))
  {
    var keys := SortedNames(m.Keys);
    SortedEnumerates(m.Keys);
    LinksInsert(r);
    assert forall k <- m :: RoundTrip(m[k], EncodeLink, DecodeLink) by {
      forall k | k in m ensures RoundTrip(m[k], EncodeLink, DecodeLink) {
        assert WholeLink(k, m[k]);
        LinkRoundTrip(m[k]);
      }
    }
    assert LinksSlot(r)(map[]) == r;
    assert forall k <- m :: WholeLink(k, m[k]);
    MapRoundTrip(m, keys, MAX_EDGES, EncodeLink, DecodeLink, PutLink, LinksSlot(r), LinkKey, StorableLink, rest);
    PutGroup(Records(m, keys), EncodeLink, DecodeLink, rest)
  }

  function PathsSlot(r: Registry): map<Name, Path> -> Registry { (m: map<Name, Path>) => r.(paths := m) }
  function PathKey(p: Path): Name { p.id }

  lemma PathsInsert(r: Registry)
    ensures Inserts(PutPath, PathsSlot(r), PathKey, StorablePath, MAX_PATHS)
  {
  }

  lemma PathRoundTrip(p: Path)
    requires CompletePath(p)
    ensures RoundTrip(p, EncodePath, DecodePath)
  {
    forall rest: Bytes ensures DecodePath(EncodePath(p, rest)) == Success((p, rest)) {}
  }

  ghost function EncodePaths(m: map<Name, Path>, r: Registry, rest: Bytes): (b: Bytes)
    requires CompletePaths(m) && r.paths == map[]
    ensures DecodePaths(b, r) == Success((r.(paths := m), rest))
  {
    var keys := SortedNames(m.Keys);
    SortedEnumerates(m.Keys);
    PathsInsert(r);
    assert forall k <- m :: RoundTrip(m[k], EncodePath, DecodePath) by {
      forall k | k in m ensures RoundTrip(m[k], EncodePath, DecodePath) {
        assert WholePath(k, m[k]);
        PathRoundTrip(m[k]);
      }
    }
    assert PathsSlot(r)(map[]) == r;
    assert forall k <- m :: WholePath(k, m[k]);
    MapRoundTrip(m, keys, MAX_PATHS, EncodePath, DecodePath, PutPath, PathsSlot(r), PathKey, StorablePath, rest);
    PutGroup(Records(m, keys), EncodePath, DecodePath, rest)
  }

  function PoliciesSlot(r: Registry): map<Name, PolicyRule> -> Registry {
    (m: map<Name, PolicyRule>) => r.(policies := m)
  }
  function PolicyKey(p: PolicyRule): Name { p.id }

  lemma PoliciesInsert(r: Registry)
    ensures Inserts(PutPolicy, PoliciesSlot(r), PolicyKey, StorablePolicy, MAX_POLICY_RULES)
  {
  }

  lemma PolicyRoundTrip(p: PolicyRule)
    requires CompletePolicy(p)
    ensures RoundTrip(p, EncodePolicy, DecodePolicy)
  {
    forall rest: Bytes ensures DecodePolicy(EncodePolicy(p, rest)) == Success((p, rest)) {}
  }

  ghost function EncodePolicies(m: map<Name, PolicyRule>, r: Registry, rest: Bytes): (b: Bytes)
    requires CompletePolicies(m) && r.policies == map[]
    ensures DecodePolicies(b, r) == Success((r.(policies := m), rest))
  {
    var keys := SortedNames(m.Keys);
    SortedEnumerates(m.Keys);
    PoliciesInsert(r);
    assert forall k <- m :: RoundTrip(m[k], EncodePolicy, DecodePolicy) by {
      forall k | k in m ensures RoundTrip(m[k], EncodePolicy, DecodePolicy) {
        assert WholePolicy(k, m[k]);
        PolicyRoundTrip(m[k]);
      }
    }
    assert PoliciesSlot(r)(map[]) == r;
    assert forall k <- m :: WholePolicy(k, m[k]);
    MapRoundTrip(m, keys, MAX_POLICY_RULES, EncodePolicy, DecodePolicy, PutPolicy, PoliciesSlot(r), PolicyKey,
                 StorablePolicy, rest);
    PutGroup(Records(m, keys), EncodePolicy, DecodePolicy, rest)
  }

  function ContractsSlot(r: Registry): map<Uuid, Contract> -> Registry {
    (m: map<Uuid, Contract>) => r.(contracts := m)
  }
  function ContractKey(c: Contract): Uuid { c.id }

  lemma ContractsInsert(r: Registry)
    ensures Inserts(PutContract, ContractsSlot(r), ContractKey, StorableContract, MAX_CONTRACTS)
  {
  }

  lemma ContractRoundTrip(c: Contract)
    requires CompleteContract(c)
    ensures RoundTrip(c, EncodeContract, DecodeContract)
  {
    forall rest: Bytes ensures DecodeContract(EncodeContract(c, rest)) == Success((c, rest)) {}
  }

  ghost function EncodeContracts(m: map<Uuid, Contract>, r: Registry, rest: Bytes): (b: Bytes)
    requires CompleteContracts(m) && r.contracts == map[]
    ensures DecodeContracts(b, r) == Success((r.(contracts := m), rest))
  {
    var keys := SortedIds(m.Keys);
    IdsEnumerate(m.Keys);
    ContractsInsert(r);
    assert forall k <- m :: RoundTrip(m[k], EncodeContract, DecodeContract) by {
      forall k | k in m ensures RoundTrip(m[k], EncodeContract, DecodeContract) {
        assert WholeContract(k, m[k]);
        ContractRoundTrip(m[k]);
      }
    }
    assert ContractsSlot(r)(map[]) == r;
    assert forall k <- m :: WholeContract(k, m[k]);
    MapRoundTrip(m, keys, MAX_CONTRACTS, EncodeContract, DecodeContract,
                 PutContract, ContractsSlot(r), ContractKey, StorableContract, rest);
    PutGroup(Records(m, keys), EncodeContract, DecodeContract, rest)
  }

  function GrantsSlot(r: Registry): map<Uuid, Grant> -> Registry { (m: map<Uuid, Grant>) => r.(grants := m) }
  function GrantKey(g: Grant): Uuid { g.id }

  lemma GrantsInsert(r: Registry)
    ensures Inserts(PutGrant, GrantsSlot(r), GrantKey, StorableGrant, MAX_GRANTS)
  {
  }

  lemma GrantRoundTrip(g: Grant)
    requires CompleteGrant(g)
    ensures RoundTrip(g, EncodeGrant, DecodeGrant)
  {
    forall rest: Bytes ensures DecodeGrant(EncodeGrant(g, rest)) == Success((g, rest)) {}
  }

  ghost function EncodeGrants(m: map<Uuid, Grant>, r: Registry, rest: Bytes): (b: Bytes)
    requires CompleteGrants(m) && r.grants == map[]
    ensures DecodeGrants(b, r) == Success((r.(grants := m), rest))
  {
    var keys := SortedIds(m.Keys);
    IdsEnumerate(m.Keys);
    GrantsInsert(r);
    assert forall k <- m :: RoundTrip(m[k], EncodeGrant, DecodeGrant) by {
      forall k | k in m ensures RoundTrip(m[k], EncodeGrant, DecodeGrant) {
        assert WholeGrant(k, m[k]);
        GrantRoundTrip(m[k]);
      }
    }
    assert GrantsSlot(r)(map[]) == r;
    assert forall k <- m :: WholeGrant(k, m[k]);
    MapRoundTrip(m, keys, MAX_GRANTS, EncodeGrant, DecodeGrant, PutGrant, GrantsSlot(r), GrantKey, StorableGrant, rest);
    PutGroup(Records(m, keys), EncodeGrant, DecodeGrant, rest)
  }

  function ReservationsSlot(r: Registry): map<Uuid, Reservation> -> Registry {
    (m: map<Uuid, Reservation>) => r.(reservations := m)
  }
  function ReservationKey(v: Reservation): Uuid { v.id }

  lemma ReservationsInsert(r: Registry)
    ensures Inserts(PutReservation, ReservationsSlot(r), ReservationKey, StorableReservation, MAX_RESERVATIONS)
  {
  }

  lemma ReservationRoundTrip(v: Reservation)
    requires CompleteReservation(v)
    ensures RoundTrip(v, EncodeReservation, DecodeReservation)
  {
    forall rest: Bytes ensures DecodeReservation(EncodeReservation(v, rest)) == Success((v, rest)) {}
  }

  ghost function EncodeReservations(m: map<Uuid, Reservation>, r: Registry, rest: Bytes): (b: Bytes)
    requires CompleteReservations(m) && r.reservations == map[]
    ensures DecodeReservations(b, r) == Success((r.(reservations := m), rest))
  {
    var keys := SortedIds(m.Keys);
    IdsEnumerate(m.Keys);
    ReservationsInsert(r);
    assert forall k <- m :: RoundTrip(m[k], EncodeReservation, DecodeReservation) by {
      forall k | k in m ensures RoundTrip(m[k], EncodeReservation, DecodeReservation) {
        assert WholeReservation(k, m[k]);
        ReservationRoundTrip(m[k]);
      }
    }
    assert ReservationsSlot(r)(map[]) == r;
    assert forall k <- m :: WholeReservation(k, m[k]);
    MapRoundTrip(m, keys, MAX_RESERVATIONS, EncodeReservation, DecodeReservation,
                 PutReservation, ReservationsSlot(r), ReservationKey, StorableReservation, rest);
    PutGroup(Records(m, keys), EncodeReservation, DecodeReservation, rest)
  }

  lemma {:induction false} TrailFolds(done: seq<Audit>, audit: seq<Audit>, r: Registry)
    requires r.audit == done && Contiguous(done + audit) && |done| + |audit| <= MAX_AUDIT_RECORDS
    ensures Fold(audit, AppendAudit, r) == Success(r.(audit := done + audit))
    decreases |audit|
  {
    if audit == [] {
      assert done + audit == done;
    } else {
      var all := done + audit;
      assert done != [] ==> all[|done|] == audit[0] && all[|done| - 1] == done[|done| - 1];
      assert done + [audit[0]] + audit[1..] == all;
      TrailFolds(done + [audit[0]], audit[1..], r.(audit := done + [audit[0]]));
    }
  }

  ghost function EncodeTrail(audit: seq<Audit>, r: Registry, rest: Bytes): (b: Bytes)
    requires CompleteTrail(audit) && r.audit == []
    ensures DecodeTrail(b, r) == Success((r.(audit := audit), rest))
  {
    assert RoundTrips(audit, EncodeAudit, DecodeAudit) by {
      forall i, tail: Bytes | 0 <= i < |audit|
        ensures DecodeAudit(EncodeAudit(audit[i], tail)) == Success((audit[i], tail)) {}
    }
    assert [] + audit == audit;
    TrailFolds([], audit, r);
    GroupRoundTrip(audit, MAX_AUDIT_RECORDS, EncodeAudit, DecodeAudit, AppendAudit, r, rest);
    PutGroup(audit, EncodeAudit, DecodeAudit, rest)
  }

  // ---- the registry ----

  function DecodeTopology(b: Bytes): Parsed<Registry> {
    var (r, b) :- DecodeClusters(b, EMPTY_REGISTRY);
    var (r, b) :- DecodeLinks(b, r);
    var (r, b) :- DecodePaths(b, r);
    DecodePolicies(b, r)
  }

  ghost function EncodeRoutes(r: Registry, read: Registry, rest: Bytes): (b: Bytes)
    requires CompleteRegistry(r) && read.paths == map[] && read.policies == map[]
    ensures DecodePaths(b, read).Success?
    ensures DecodePolicies(DecodePaths(b, read).value.1, DecodePaths(b, read).value.0)
         == Success((read.(paths := r.paths, policies := r.policies), rest))
  {
    EncodePaths(r.paths, read, EncodePolicies(r.policies, read.(paths := r.paths), rest))
  }

  lemma TopologyDecodes(b: Bytes, r: Registry, links: Bytes, routes: Bytes, rest: Bytes)
    requires DecodeClusters(b, EMPTY_REGISTRY) == Success((EMPTY_REGISTRY.(clusters := r.clusters), links))
    requires DecodeLinks(links, EMPTY_REGISTRY.(clusters := r.clusters))
          == Success((EMPTY_REGISTRY.(clusters := r.clusters, links := r.links), routes))
    requires var read := EMPTY_REGISTRY.(clusters := r.clusters, links := r.links);
             && DecodePaths(routes, read).Success?
             && DecodePolicies(DecodePaths(routes, read).value.1, DecodePaths(routes, read).value.0)
                == Success((read.(paths := r.paths, policies := r.policies), rest))
    ensures DecodeTopology(b)
            == Success((Registry(r.clusters, r.links, r.paths, r.policies, map[], map[], map[], []), rest))
  {
  }

  ghost function EncodeTopology(r: Registry, rest: Bytes): (b: Bytes)
    requires CompleteRegistry(r)
    ensures DecodeTopology(b)
            == Success((Registry(r.clusters, r.links, r.paths, r.policies, map[], map[], map[], []), rest))
  {
    var routes := EncodeRoutes(r, EMPTY_REGISTRY.(clusters := r.clusters, links := r.links), rest);
    var links := EncodeLinks(r.links, EMPTY_REGISTRY.(clusters := r.clusters), routes);
    var b := EncodeClusters(r.clusters, EMPTY_REGISTRY, links);
    TopologyDecodes(b, r, links, routes, rest);
    b
  }

  function DecodeAuthority(b: Bytes, r: Registry, withAudit: bool): Parsed<Registry> {
    var (r, b) :- DecodeContracts(b, r);
    var (r, b) :- DecodeGrants(b, r);
    var (r, b) :- DecodeReservations(b, r);
    if withAudit then DecodeTrail(b, r) else Success((r, b))
  }

  ghost function EncodeAuthority(r: Registry, withAudit: bool, rest: Bytes): (b: Bytes)
    requires CompleteRegistry(r)
    ensures DecodeAuthority(b, Registry(r.clusters, r.links, r.paths, r.policies, map[], map[], map[], []), withAudit)
         == Success((if withAudit then r else r.(audit := []), rest))
  {
    var r0 := Registry(r.clusters, r.links, r.paths, r.policies, map[], map[], map[], []);
    var r1 := r0.(contracts := r.contracts);
    var r2 := r1.(grants := r.grants);
    var r3 := r2.(reservations := r.reservations);
    EncodeContracts(r.contracts, r0, EncodeGrants(r.grants, r1, EncodeReservations(r.reservations, r2,
      if withAudit then EncodeTrail(r.audit, r3, rest) else rest)))
  }

  function DecodeBody(b: Bytes, withAudit: bool): Parsed<Registry> {
    var (r, b) :- DecodeTopology(b);
    DecodeAuthority(b, r, withAudit)
  }

  ghost function EncodeBody(r: Registry, withAudit: bool, rest: Bytes): (b: Bytes)
    requires CompleteRegistry(r)
    ensures DecodeBody(b, withAudit) == Success((if withAudit then r else r.(audit := []), rest))
  {
    EncodeTopology(r, EncodeAuthority(r, withAudit, rest))
  }

  function DecodePreamble(b: Bytes): Parsed<bool> {
    var (version, b) :- TakeU16(b);
    if version != MODEL_ENCODING_VERSION then Failure(Incompatible) else TakeBool(b)
  }

  function EncodePreamble(withAudit: bool, rest: Bytes): (b: Bytes)
    ensures DecodePreamble(b) == Success((withAudit, rest))
  {
    PutU16(MODEL_ENCODING_VERSION, PutBool(withAudit, rest))
  }

  /** `decode_registry`: everything, and nothing after it. */
  function DecodeRegistry(b: Bytes): Result<Registry> {
    var (withAudit, b) :- DecodePreamble(b);
    var (r, b) :- DecodeBody(b, withAudit);
    if b != [] then Failure(Invalid) else Success(r)
  }

  /** `encode_registry`: a complete registry is read back whole; without the audit trail, without it. */
  ghost function EncodeRegistry(r: Registry, withAudit: bool): (b: Bytes)
    requires CompleteRegistry(r)
    ensures DecodeRegistry(b) == Success(if withAudit then r else r.(audit := []))
  {
    EncodePreamble(withAudit, EncodeBody(r, withAudit, []))
  }

  /** Different registries have different encodings. */
  lemma RegistryInjective(r: Registry, s: Registry)
    requires CompleteRegistry(r) && CompleteRegistry(s) && EncodeRegistry(r, true) == EncodeRegistry(s, true)
    ensures r == s
  {
    assert DecodeRegistry(EncodeRegistry(r, true)) == Success(r);
    assert DecodeRegistry(EncodeRegistry(s, true)) == Success(s);
  }
}
