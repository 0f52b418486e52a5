/** The changes the store logs (src/store/mutation.cpp): their encoding and their effect. */
module Mutations {
  import opened Model
  import opened Wire
  import opened Canonical
  import opened RegistryCodec

  /** A put or an erase of one record; an erase carries a whole record, of which only the identity matters. */
  datatype Mutation =
    | OfCluster(erase: bool, cluster: Cluster)
    | OfLink(erase: bool, link: Link)
    | OfPath(erase: bool, path: Path)
    | OfPolicy(erase: bool, policy: PolicyRule)
    | OfContract(erase: bool, contract: Contract)
    | OfGrant(erase: bool, grant: Grant)
    | OfReservation(reservation: Reservation)
    | OfAudit(audit: Audit)
    | MetaSet(term: nat, incarnation: Uuid)

  /** The numbers of the source's `MutationKind`. */
  function Kind(m: Mutation): (kind: nat)
    ensures 1 <= kind <= 15
  {
    match m
    case OfCluster(erase, _) => if erase then 2 else 1
    case OfLink(erase, _) => if erase then 4 else 3
    case OfPath(erase, _) => if erase then 6 else 5
    case OfPolicy(erase, _) => if erase then 8 else 7
    case OfContract(erase, _) => if erase then 10 else 9
    case OfGrant(erase, _) => if erase then 12 else 11
    case OfReservation(_) => 13
    case OfAudit(_) => 14
    case MetaSet(_, _) => 15
  }

  predicate CompleteMutation(m: Mutation) {
    match m
    case OfCluster(_, c) => CompleteCluster(c)
    case OfLink(_, l) => CompleteLink(l)
    case OfPath(_, p) => CompletePath(p)
    case OfPolicy(_, p) => CompletePolicy(p)
    case OfContract(_, c) => CompleteContract(c)
    case OfGrant(_, g) => CompleteGrant(g)
    case OfReservation(v) => CompleteReservation(v)
    case OfAudit(a) => CompleteAudit(a)
    case MetaSet(term, incarnation) => IsCount(term) && IsUuid(incarnation)
  }

  // ---- encoding ----

  function DecodeMeta(b: Bytes): Parsed<Mutation> {
    var (term, b) :- TakeCounter(b, MAX_GENERATION);
    var (incarnation, b) :- TakeUuid(b);
    Success((MetaSet(term, incarnation), b))
  }

  function EncodeMeta(term: nat, incarnation: Uuid, rest: Bytes): (b: Bytes)
    requires IsCount(term) && IsUuid(incarnation)
    ensures DecodeMeta(b) == Success((MetaSet(term, incarnation), rest))
  {
    PutCounter(term, MAX_GENERATION, PutUuid(incarnation, rest))
  }

  function TakeCluster(erase: bool, b: Bytes): Parsed<Mutation> {
    var (c, b) :- DecodeCluster(b);
    Success((OfCluster(erase, c), b))
  }

  function TakeLink(erase: bool, b: Bytes): Parsed<Mutation> {
    var (l, b) :- DecodeLink(b);
    Success((OfLink(erase, l), b))
  }

  function TakePath(erase: bool, b: Bytes): Parsed<Mutation> {
    var (p, b) :- DecodePath(b);
    Success((OfPath(erase, p), b))
  }

  function TakePolicy(erase: bool, b: Bytes): Parsed<Mutation> {
    var (p, b) :- DecodePolicy(b);
    Success((OfPolicy(erase, p), b))
  }

  function TakeContract(erase: bool, b: Bytes): Parsed<Mutation> {
    var (c, b) :- DecodeContract(b);
    Success((OfContract(erase, c), b))
  }

  function TakeGrant(erase: bool, b: Bytes): Parsed<Mutation> {
    var (g, b) :- DecodeGrant(b);
    Success((OfGrant(erase, g), b))
  }

  function TakeReservation(b: Bytes): Parsed<Mutation> {
    var (v, b) :- DecodeReservation(b);
    Success((OfReservation(v), b))
  }

  function TakeAudit(b: Bytes): Parsed<Mutation> {
    var (a, b) :- DecodeAudit(b);
    Success((OfAudit(a), b))
  }

  /** How the payload of a kind is read. */
  function DecodePayload(kind: nat, b: Bytes): Parsed<Mutation> {
    if kind <= 2 then TakeCluster(kind == 2, b)
    else if kind <= 4 then TakeLink(kind == 4, b)
    else if kind <= 6 then TakePath(kind == 6, b)
    else if kind <= 8 then TakePolicy(kind == 8, b)
    else if kind <= 10 then TakeContract(kind == 10, b)
    else if kind <= 12 then TakeGrant(kind == 12, b)
    else if kind == 13 then TakeReservation(b)
    else if kind == 14 then TakeAudit(b)
    else DecodeMeta(b)
  }

  /** `decode_mutation`. */
  function DecodeMutation(b: Bytes): Parsed<Mutation> {
    var (kind, b) :- TakeU16(b);
    if kind == 0 || kind > 15 then Failure(Invalid) else DecodePayload(kind, b)
  }

  ghost function Payload(m: Mutation, rest: Bytes): Bytes
    requires CompleteMutation(m)
  {
    match m
    case OfCluster(_, c) => EncodeCluster(c, rest)
    case OfLink(_, l) => EncodeLink(l, rest)
    case OfPath(_, p) => EncodePath(p, rest)
    case OfPolicy(_, p) => EncodePolicy(p, rest)
    case OfContract(_, c) => EncodeContract(c, rest)
    case OfGrant(_, g) => EncodeGrant(g, rest)
    case OfReservation(v) => EncodeReservation(v, rest)
    case OfAudit(a) => EncodeAudit(a, rest)
    case MetaSet(term, incarnation) => EncodeMeta(term, incarnation, rest)
  }

  /** `encode_mutation`. */
  ghost function EncodeMutation(m: Mutation, rest: Bytes): Bytes
    requires CompleteMutation(m)
  {
    PutU16(Kind(m), Payload(m, rest))
  }

  /** The kind stands first and tells how the rest is read. */
  lemma KindLeads(kind: nat, payload: Bytes)
    requires 1 <= kind <= 15
    ensures DecodeMutation(PutU16(kind, payload)) == DecodePayload(kind, payload)
  {
  }

  // One entity at a time: what is written for it is read back.

  lemma ClusterBack(m: Mutation, rest: Bytes)
    requires m.OfCluster? && CompleteMutation(m)
    ensures DecodePayload(Kind(m), Payload(m, rest)) == Success((m, rest))
  {
    assert DecodeCluster(EncodeCluster(m.cluster, rest)) == Success((m.cluster, rest));
  }

  lemma LinkBack(m: Mutation, rest: Bytes)
    requires m.OfLink? && CompleteMutation(m)
    ensures DecodePayload(Kind(m), Payload(m, rest)) == Success((m, rest))
  {
    assert DecodeLink(EncodeLink(m.link, rest)) == Success((m.link, rest));
  }

  lemma PathBack(m: Mutation, rest: Bytes)
    requires m.OfPath? && CompleteMutation(m)
    ensures DecodePayload(Kind(m), Payload(m, rest)) == Success((m, rest))
  {
    assert DecodePath(EncodePath(m.path, rest)) == Success((m.path, rest));
  }

  lemma PolicyBack(m: Mutation, rest: Bytes)
    requires m.OfPolicy? && CompleteMutation(m)
    ensures DecodePayload(Kind(m), Payload(m, rest)) == Success((m, rest))
  {
    assert DecodePolicy(EncodePolicy(m.policy, rest)) == Success((m.policy, rest));
  }

  lemma ContractBack(m: Mutation, rest: Bytes)
    requires m.OfContract? && CompleteMutation(m)
    ensures DecodePayload(Kind(m), Payload(m, rest)) == Success((m, rest))
  {
    assert DecodeContract(EncodeContract(m.contract, rest)) == Success((m.contract, rest));
  }

  lemma GrantKinds(erase: bool, b: Bytes)
    ensures DecodePayload(if erase then 12 else 11, b) == TakeGrant(erase, b)
  {
  }

  lemma GrantTakes(erase: bool, g: Grant, rest: Bytes)
    requires CompleteGrant(g)
    ensures TakeGrant(erase, EncodeGrant(g, rest)) == Success((OfGrant(erase, g), rest))
  {
  }

  lemma GrantBack(m: Mutation, rest: Bytes)
    requires m.OfGrant? && CompleteMutation(m)
    ensures DecodePayload(Kind(m), Payload(m, rest)) == Success((m, rest))
  {
    GrantTakes(m.erase, m.grant, rest);
    GrantKinds(m.erase, EncodeGrant(m.grant, rest));
  }

  lemma ReservationBack(m: Mutation, rest: Bytes)
    requires m.OfReservation? && CompleteMutation(m)
    ensures DecodePayload(Kind(m), Payload(m, rest)) == Success((m, rest))
  {
    assert DecodeReservation(EncodeReservation(m.reservation, rest)) == Success((m.reservation, rest));
  }

  lemma AuditBack(m: Mutation, rest: Bytes)
    requires m.OfAudit? && CompleteMutation(m)
    ensures DecodePayload(Kind(m), Payload(m, rest)) == Success((m, rest))
  {
    assert DecodeAudit(EncodeAudit(m.audit, rest)) == Success((m.audit, rest));
  }

  lemma PayloadBack(m: Mutation, rest: Bytes)
    requires CompleteMutation(m)
    ensures DecodePayload(Kind(m), Payload(m, rest)) == Success((m, rest))
  {
    match m
    case OfCluster(_, _) => ClusterBack(m, rest);
    case OfLink(_, _) => LinkBack(m, rest);
    case OfPath(_, _) => PathBack(m, rest);
    case OfPolicy(_, _) => PolicyBack(m, rest);
    case OfContract(_, _) => ContractBack(m, rest);
    case OfGrant(_, _) => GrantBack(m, rest);
    case OfReservation(_) => ReservationBack(m, rest);
    case OfAudit(_) => AuditBack(m, rest);
    case MetaSet(_, _) =>
  }

  /** Every complete mutation is read back, whatever follows it. */
  lemma MutationReadsBack(m: Mutation, rest: Bytes)
    requires CompleteMutation(m)
    ensures DecodeMutation(EncodeMutation(m, rest)) == Success((m, rest))
  {
    KindLeads(Kind(m), Payload(m, rest));
    PayloadBack(m, rest);
  }

  lemma MutationInjective(m: Mutation, n: Mutation, rest: Bytes, more: Bytes)
    requires CompleteMutation(m) && CompleteMutation(n) && EncodeMutation(m, rest) == EncodeMutation(n, more)
    ensures m == n && rest == more
  {
    MutationReadsBack(m, rest);
    MutationReadsBack(n, more);
  }

  // ---- effect ----

  /** `validate_mutation`. */
  function Validate(r: Registry, m: Mutation): Outcome {
    match m
    case OfCluster(erase, c) =>
      if c.id == [] then Invalid
      else if !erase && c.id !in r.clusters && |r.clusters| >= MAX_CLUSTERS then CapacityExceeded
      else if !erase && |c.endpoints| > MAX_ENDPOINTS_PER_CLUSTER then CapacityExceeded
      else Ok
    case OfLink(erase, l) =>
      if l.id == [] || (!erase && (l.a == [] || l.b == [])) then Invalid
      else if !erase && l.reserved > l.capacity then CapacityExceeded
      else Ok
    case OfPath(erase, p) =>
      if p.id == [] || (!erase && p.hops == []) then Invalid
      else if !erase && |p.hops| > MAX_PATH_HOPS then CapacityExceeded
      else Ok
    case OfPolicy(_, p) => if p.id == [] then Invalid else Ok
    case OfContract(_, c) => if c.id == 0 then Invalid else Ok
    case OfGrant(erase, g) => if g.id == 0 || (!erase && g.contract !in r.contracts) then Invalid else Ok
    case OfReservation(v) => if v.id == 0 || v.grant !in r.grants then Invalid else Ok
    case OfAudit(_) => Ok
    case MetaSet(_, _) => Ok
  }

  function EraseCluster(r: Registry, id: Name): Result<Registry> {
    if id in r.clusters then Success(r.(clusters := r.clusters - {id})) else Failure(NotFound)
  }
  function EraseLink(r: Registry, id: Name): Result<Registry> {
    if id in r.links then Success(r.(links := r.links - {id})) else Failure(NotFound)
  }
  function ErasePath(r: Registry, id: Name): Result<Registry> {
    if id in r.paths then Success(r.(paths := r.paths - {id})) else Failure(NotFound)
  }
  function ErasePolicy(r: Registry, id: Name): Result<Registry> {
    if id in r.policies then Success(r.(policies := r.policies - {id})) else Failure(NotFound)
  }
  function EraseContract(r: Registry, id: Uuid): Result<Registry> {
    if id in r.contracts then Success(r.(contracts := r.contracts - {id})) else Failure(NotFound)
  }
  function EraseGrant(r: Registry, id: Uuid): Result<Registry> {
    if id in r.grants then Success(r.(grants := r.grants - {id})) else Failure(NotFound)
  }

  function Change(r: Registry, m: Mutation): Result<Registry> {
    match m
    case OfCluster(erase, c) => if erase then EraseCluster(r, c.id) else PutCluster(r, c)
    case OfLink(erase, l) => if erase then EraseLink(r, l.id) else PutLink(r, l)
    case OfPath(erase, p) => if erase then ErasePath(r, p.id) else PutPath(r, p)
    case OfPolicy(erase, p) => if erase then ErasePolicy(r, p.id) else PutPolicy(r, p)
    case OfContract(erase, c) => if erase then EraseContract(r, c.id) else PutContract(r, c)
    case OfGrant(erase, g) => if erase then EraseGrant(r, g.id) else PutGrant(r, g)
    case OfReservation(v) => PutReservation(r, v)
    case OfAudit(a) => AppendAudit(r, a)
    case MetaSet(_, _) => Success(r)
  }

  /** `apply_mutation`. */
  function Apply(r: Registry, m: Mutation): Result<Registry> {
    if Validate(r, m) != Ok then Failure(Validate(r, m)) else Change(r, m)
  }

  // ---- what is logged and replayed can be snapshotted ----

  lemma WithClusters(r: Registry, m: map<Name, Cluster>)
    requires CompleteRegistry(r) && CompleteClusters(m)
    ensures CompleteRegistry(r.(clusters := m))
  {
  }

  lemma PutClusterComplete(r: Registry, c: Cluster)
    requires CompleteRegistry(r) && CompleteCluster(c) && PutCluster(r, c).Success?
    ensures CompleteRegistry(PutCluster(r, c).value)
  {
    assert WholeCluster(c.id, c);
    InsertKeepsFilled(r.clusters, MAX_CLUSTERS, WholeCluster, c.id, c);
    WithClusters(r, r.clusters[c.id := c]);
  }

  lemma EraseClusterComplete(r: Registry, id: Name)
    requires CompleteRegistry(r) && EraseCluster(r, id).Success?
    ensures CompleteRegistry(EraseCluster(r, id).value)
  {
    EraseKeepsFilled(r.clusters, MAX_CLUSTERS, WholeCluster, id);
    WithClusters(r, r.clusters - {id});
  }

  lemma WithLinks(r: Registry, m: map<Name, Link>)
    requires CompleteRegistry(r) && CompleteLinks(m)
    ensures CompleteRegistry(r.(links := m))
  {
  }

  lemma PutLinkComplete(r: Registry, l: Link)
    requires CompleteRegistry(r) && CompleteLink(l) && PutLink(r, l).Success?
    ensures CompleteRegistry(PutLink(r, l).value)
  {
    assert WholeLink(l.id, l);
    InsertKeepsFilled(r.links, MAX_EDGES, WholeLink, l.id, l);
    WithLinks(r, r.links[l.id := l]);
  }

  lemma EraseLinkComplete(r: Registry, id: Name)
    requires CompleteRegistry(r) && EraseLink(r, id).Success?
    ensures CompleteRegistry(EraseLink(r, id).value)
  {
    EraseKeepsFilled(r.links, MAX_EDGES, WholeLink, id);
    WithLinks(r, r.links - {id});
  }

  lemma WithPaths(r: Registry, m: map<Name, Path>)
    requires CompleteRegistry(r) && CompletePaths(m)
    ensures CompleteRegistry(r.(paths := m))
  {
  }

  lemma PutPathComplete(r: Registry, p: Path)
    requires CompleteRegistry(r) && CompletePath(p) && PutPath(r, p).Success?
    ensures CompleteRegistry(PutPath(r, p).value)
  {
    assert WholePath(p.id, p);
    InsertKeepsFilled(r.paths, MAX_PATHS, WholePath, p.id, p);
    WithPaths(r, r.paths[p.id := p]);
  }

  lemma ErasePathComplete(r: Registry, id: Name)
    requires CompleteRegistry(r) && ErasePath(r, id).Success?
    ensures CompleteRegistry(ErasePath(r, id).value)
  {
    EraseKeepsFilled(r.paths, MAX_PATHS, WholePath, id);
    WithPaths(r, r.paths - {id});
  }

  lemma WithPolicies(r: Registry, m: map<Name, PolicyRule>)
    requires CompleteRegistry(r) && CompletePolicies(m)
    ensures CompleteRegistry(r.(policies := m))
  {
  }

  lemma PutPolicyComplete(r: Registry, p: PolicyRule)
    requires CompleteRegistry(r) && CompletePolicy(p) && PutPolicy(r, p).Success?
    ensures CompleteRegistry(PutPolicy(r, p).value)
  {
    assert WholePolicy(p.id, p);
    InsertKeepsFilled(r.policies, MAX_POLICY_RULES, WholePolicy, p.id, p);
    WithPolicies(r, r.policies[p.id := p]);
  }

  lemma ErasePolicyComplete(r: Registry, id: Name)
    requires CompleteRegistry(r) && ErasePolicy(r, id).Success?
    ensures CompleteRegistry(ErasePolicy(r, id).value)
  {
    EraseKeepsFilled(r.policies, MAX_POLICY_RULES, WholePolicy, id);
    WithPolicies(r, r.policies - {id});
  }

  lemma WithContracts(r: Registry, m: map<Uuid, Contract>)
    requires CompleteRegistry(r) && CompleteContracts(m)
    ensures CompleteRegistry(r.(contracts := m))
  {
  }

  lemma PutContractComplete(r: Registry, c: Contract)
    requires CompleteRegistry(r) && CompleteContract(c) && PutContract(r, c).Success?
    ensures CompleteRegistry(PutContract(r, c).value)
  {
    assert WholeContract(c.id, c);
    InsertKeepsFilled(r.contracts, MAX_CONTRACTS, WholeContract, c.id, c);
    WithContracts(r, r.contracts[c.id := c]);
  }

  lemma EraseContractComplete(r: Registry, id: Uuid)
    requires CompleteRegistry(r) && EraseContract(r, id).Success?
    ensures CompleteRegistry(EraseContract(r, id).value)
  {
    EraseKeepsFilled(r.contracts, MAX_CONTRACTS, WholeContract, id);
    WithContracts(r, r.contracts - {id});
  }

  lemma WithGrants(r: Registry, m: map<Uuid, Grant>)
    requires CompleteRegistry(r) && CompleteGrants(m)
    ensures CompleteRegistry(r.(grants := m))
  {
  }

  lemma PutGrantComplete(r: Registry, g: Grant)
    requires CompleteRegistry(r) && CompleteGrant(g) && PutGrant(r, g).Success?
    ensures CompleteRegistry(PutGrant(r, g).value)
  {
    assert WholeGrant(g.id, g);
    InsertKeepsFilled(r.grants, MAX_GRANTS, WholeGrant, g.id, g);
    WithGrants(r, r.grants[g.id := g]);
  }

  lemma EraseGrantComplete(r: Registry, id: Uuid)
    requires CompleteRegistry(r) && EraseGrant(r, id).Success?
    ensures CompleteRegistry(EraseGrant(r, id).value)
  {
    EraseKeepsFilled(r.grants, MAX_GRANTS, WholeGrant, id);
    WithGrants(r, r.grants - {id});
  }

  lemma WithReservations(r: Registry, m: map<Uuid, Reservation>)
    requires CompleteRegistry(r) && CompleteReservations(m)
    ensures CompleteRegistry(r.(reservations := m))
  {
  }

  lemma PutReservationComplete(r: Registry, v: Reservation)
    requires CompleteRegistry(r) && CompleteReservation(v) && PutReservation(r, v).Success?
    ensures CompleteRegistry(PutReservation(r, v).value)
  {
    assert WholeReservation(v.id, v);
    InsertKeepsFilled(r.reservations, MAX_RESERVATIONS, WholeReservation, v.id, v);
    WithReservations(r, r.reservations[v.id := v]);
  }

  lemma WithTrail(r: Registry, audit: seq<Audit>)
    requires CompleteRegistry(r) && CompleteTrail(audit)
    ensures CompleteRegistry(r.(audit := audit))
  {
  }

  lemma LongerTrail(audit: seq<Audit>, a: Audit)
    requires CompleteTrail(audit) && CompleteAudit(a) && |audit| < MAX_AUDIT_RECORDS
    requires audit != [] ==> a.sequence == audit[|audit| - 1].sequence + 1
    ensures CompleteTrail(audit + [a])
  {
  }

  lemma AuditComplete(r: Registry, a: Audit)
    requires CompleteRegistry(r) && CompleteAudit(a) && AppendAudit(r, a).Success?
    ensures CompleteRegistry(AppendAudit(r, a).value)
  {
    LongerTrail(r.audit, a);
    WithTrail(r, r.audit + [a]);
  }

  /** Every registry that replaying complete mutations can reach is complete itself. */
  lemma ApplyKeepsComplete(r: Registry, m: Mutation)
    requires CompleteRegistry(r) && CompleteMutation(m) && Apply(r, m).Success?
    ensures CompleteRegistry(Apply(r, m).value)
  {
    match m
    case OfCluster(erase, c) => if erase { EraseClusterComplete(r, c.id); } else { PutClusterComplete(r, c); }
    case OfLink(erase, l) => if erase { EraseLinkComplete(r, l.id); } else { PutLinkComplete(r, l); }
    case OfPath(erase, p) => if erase { ErasePathComplete(r, p.id); } else { PutPathComplete(r, p); }
    case OfPolicy(erase, p) => if erase { ErasePolicyComplete(r, p.id); } else { PutPolicyComplete(r, p); }
    case OfContract(erase, c) => if erase { EraseContractComplete(r, c.id); } else { PutContractComplete(r, c); }
    case OfGrant(erase, g) => if erase { EraseGrantComplete(r, g.id); } else { PutGrantComplete(r, g); }
    case OfReservation(v) => PutReservationComplete(r, v);
    case OfAudit(a) => AuditComplete(r, a);
    case MetaSet(_, _) =>
  }
}
