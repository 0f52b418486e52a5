/** The authoritative records of the coordinator and of the cluster agents.
    Ordered containers of the source (`std::map`, and the endpoint vector kept sorted and free of
    duplicates by `put_cluster`) are Dafny maps.  Fields that never take part in an authorization
    (notes, provenance, revisions) sit in `notes` sub-records: only the codec looks inside. */
module Model {

  type Byte = n: int | 0 <= n < 256
  type Bytes = seq<Byte>
  type Name = Bytes  // a bounded text identity; [] is the absent identity
  type Uuid = nat    // the 16 bytes of an identity read as a big-endian number; 0 is nil
  type Digest = nat  // the 32 bytes of a digest read as a big-endian number
  type Time = int    // unix nanoseconds

  // ---- limits (include/icf/core/limits.hpp) ----

  const MAX_NAME_LENGTH := 96
  const MAX_SCOPE_LENGTH := 192
  const MAX_STRING_FIELD := 512
  const MAX_CLUSTERS := 1024
  const MAX_ENDPOINTS_PER_CLUSTER := 4096
  const MAX_EDGES := 65536
  const MAX_PATH_HOPS := 16
  const MAX_PATHS := 65536
  const MAX_POLICY_RULES := 4096
  const MAX_CONTRACTS := 65536
  const MAX_GRANTS := 131072
  const MAX_RESERVATIONS := 131072
  const MAX_AUDIT_RECORDS := 65536
  const MAX_FENCE_PLAN_ENTRIES := 65536
  const MAX_CAPACITY := 0x1_0000_0000_0000
  const MAX_DURATION_NANOS := 31_536_000_000_000_000
  const MAX_GENERATION := 0x4000_0000_0000_0000
  const MAX_REVALIDATE_ATTEMPTS := 64

  // ---- outcomes ----

  datatype Outcome =
    | Ok | Unknown | Unsupported | Stale | Conflicting | Incomplete | Indeterminate | Refused
    | Cancelled | Invalid | Unreachable | Partitioned | DegradedAuthorized | Fenced | Expired
    | Unauthorized | NotFound | CapacityExceeded | Replayed | Reincarnated | Corrupt | Incompatible
    | Overflow | Busy | AlreadyExists | Internal

  datatype Option<+T> = None | Some(value: T)

  datatype Result<+T> = Success(value: T) | Failure(outcome: Outcome) {
    predicate IsFailure() { Failure? }
    function PropagateFailure<U>(): Result<U>
      requires Failure?
    {
      Failure(outcome)
    }
    function Extract(): T
      requires Success?
    {
      value
    }
  }

  // ---- the two parties of a contract ----

  datatype Side = First | Second

  datatype Two<T> = Two(first: T, second: T) {
    function At(side: Side): T {
      if side == First then first else second
    }
    function Set(side: Side, value: T): Two<T> {
      if side == First then Two(value, second) else Two(first, value)
    }
  }

  // ---- enumerations ----

  datatype ClusterState = ClusterUnknown | ClusterActive | ClusterSuspended | ClusterDraining | ClusterRetired
  datatype EndpointState = EndpointUnknown | EndpointActive | EndpointSuspended | EndpointDraining | EndpointRetired
  datatype LinkKind = KindUnknown | LoopbackTcp | SyntheticModel | OpticalInterconnect
  datatype LinkState = LinkUnknown | LinkUp | LinkDegraded | LinkDown | LinkUnsupported
  datatype PathState = PathUnknown | PathUp | PathDegraded | PathDown
  datatype ContractState =
    | Proposed | AwaitingConsent | Consented | ContractActive | ContractRefused | ContractWithdrawn
    | ContractExpired | ContractFenced
  datatype GrantState =
    | Preparing | Prepared | Committed | GrantActive | GrantIndeterminate | Aborted | GrantFenced
    | GrantExpired | GrantWithdrawn
  datatype ConsentDecision = ConsentAccepted | ConsentRefused
  datatype EvidenceSource =
    | SourceUnspecified | AdminConfigured | AgentReported | DerivedFromTopology | RecoveredFromStore
    | Synthetic
  datatype VerificationState = Unverified | Verified | Failed | NotApplicable | VerificationUnsupported
  datatype Authenticity = NoAuthenticity | SharedKeyMac

  // ---- records (include/icf/model/records.hpp) ----

  datatype Provenance = Provenance(
    source: EvidenceSource, verification: VerificationState, observedAt: Time, revision: nat,
    session: Uuid, evidence: Digest)

  datatype Endpoint = Endpoint(
    id: Name, cluster: Name, capacity: nat, reserved: nat, policyGeneration: nat, state: EndpointState,
    interClusterAllowed: bool, permitsDegraded: bool, notes: EndpointNotes)

  datatype EndpointNotes = EndpointNotes(scope: Name, provenance: Provenance)

  datatype Cluster = Cluster(
    id: Name, domain: Name, incarnation: Uuid, generation: nat, policyGeneration: nat,
    state: ClusterState, consentWithdrawn: bool, endpoints: map<Name, Endpoint>, contentDigest: Digest,
    generationConflict: bool, notes: ClusterNotes)

  datatype ClusterNotes = ClusterNotes(
    lastSeen: Time, conflictingGeneration: Option<nat>, revision: nat, provenance: Provenance,
    incarnationChanges: nat)

  datatype Link = Link(
    id: Name, a: Name, b: Name, kind: LinkKind, state: LinkState, capacity: nat, reserved: nat,
    latencyMicros: nat, revision: nat, provenance: Provenance)

  datatype Path = Path(
    id: Name, a: Name, b: Name, hops: seq<Name>, bottleneck: nat, state: PathState, revision: nat,
    provenance: Provenance, containsUnsupportedEdge: bool)

  datatype PolicyRule = PolicyRule(
    id: Name, owner: Name, clusterA: Name, clusterB: Name, endpointA: Name, endpointB: Name,
    generation: nat, allow: bool, allowDegraded: bool, maxCapacity: nat, revision: nat,
    provenance: Provenance)

  datatype Party = Party(cluster: Name, endpoint: Name, domain: Name)

  datatype Consent = Consent(
    cluster: Name, endpoint: Name, incarnation: Uuid, generation: nat, policyGeneration: nat,
    agentTerm: nat, termsDigest: Digest, decision: ConsentDecision, notes: ConsentNotes)

  datatype ConsentNotes = ConsentNotes(
    decidedAt: Time, session: Uuid, authenticity: Authenticity, reason: Bytes)

  datatype Contract = Contract(
    id: Uuid, parties: Two<Party>, capacity: nat, leaseDuration: int, termsDigest: Digest,
    state: ContractState, consents: Two<Option<Consent>>, updatedAt: Time, notes: ContractNotes)
  {
    /** The first party slot that names the cluster, as `ContractRecord::side_of`. */
    function SideOf(cluster: Name): Option<Side> {
      if parties.first.cluster == cluster then Some(First)
      else if parties.second.cluster == cluster then Some(Second)
      else None
    }
    predicate Names(cluster: Name) {
      parties.first.cluster == cluster || parties.second.cluster == cluster
    }
    predicate BothConsented() {
      && consents.first.Some? && consents.first.value.decision == ConsentAccepted
      && consents.second.Some? && consents.second.value.decision == ConsentAccepted
    }
  }

  datatype ContractNotes = ContractNotes(createdAt: Time, revision: nat, provenance: Provenance)

  /** What a grant is bound to on one side. */
  datatype Binding = Binding(incarnation: Uuid, generation: nat, policy: nat)

  datatype Grant = Grant(
    id: Uuid, contract: Uuid, termsDigest: Digest, term: nat, coordinator: Uuid, attempt: Uuid,
    bindings: Two<Binding>, capacity: nat, issuedAt: Time, validUntil: Time, state: GrantState,
    acknowledged: Two<bool>, notes: GrantNotes)
  {
    predicate Usable() { state == Committed || state == GrantActive }
    predicate BothAcknowledged() { acknowledged.first && acknowledged.second }
    /** The states `plan_fence` withdraws. */
    predicate Live() {
      Usable() || state == Prepared || state == Preparing || state == GrantIndeterminate
    }
  }

  datatype GrantNotes = GrantNotes(
    enforcement: Two<Digest>, revalidateAttempts: nat, note: Bytes, revision: nat, provenance: Provenance)

  datatype Reservation = Reservation(
    id: Uuid, grant: Uuid, endpoint: Name, cluster: Name, amount: nat, released: bool,
    notes: ReservationNotes)

  datatype ReservationNotes = ReservationNotes(
    createdAt: Time, releasedAt: Time, revision: nat, provenance: Provenance)

  datatype Audit = Audit(sequence: nat, at: Time, outcome: Outcome, text: AuditText)
  datatype AuditText = AuditText(actor: Bytes, action: Bytes, subject: Bytes, detail: Bytes)

  datatype Terms = Terms(
    parties: Two<Party>, capacity: nat, leaseDuration: int, bindings: Two<Binding>, proposedAt: Time)
  {
    function SideOf(cluster: Name): Option<Side> {
      if parties.first.cluster == cluster then Some(First)
      else if parties.second.cluster == cluster then Some(Second)
      else None
    }
    /** `ContractTerms::validate`. */
    function Validate(): Outcome {
      if parties.first.cluster == [] || parties.second.cluster == [] then Invalid
      else if parties.first.cluster == parties.second.cluster then Invalid
      else if parties.first.endpoint == [] || parties.second.endpoint == [] then Invalid
      else if parties.first.domain == [] || parties.second.domain == [] then Invalid
      else if capacity > MAX_CAPACITY then Overflow
      else if leaseDuration < 0 || leaseDuration > MAX_DURATION_NANOS then Invalid
      else if parties.first.domain == parties.second.domain then Unsupported
      else Ok
    }
  }

  datatype Registry = Registry(
    clusters: map<Name, Cluster>, links: map<Name, Link>, paths: map<Name, Path>,
    policies: map<Name, PolicyRule>, contracts: map<Uuid, Contract>, grants: map<Uuid, Grant>,
    reservations: map<Uuid, Reservation>, audit: seq<Audit>)

  const EMPTY_REGISTRY := Registry(map[], map[], map[], map[], map[], map[], map[], [])

  /** No endpoint identity is declared by two clusters. */
  predicate UniqueOwners(r: Registry) {
    forall c <- r.clusters, d <- r.clusters, e <- r.clusters[c].endpoints :: e in r.clusters[d].endpoints ==> c == d
  }

  // ---- bounded insertion (src/model/registry.cpp) ----

  predicate HasRoom<K, V>(m: map<K, V>, key: K, bound: nat) {
    key in m || |m| < bound
  }

  /** `put_cluster`: the record is stored only when it is complete, its endpoints belong to it and
      no endpoint has promised more than it holds. */
  function PutCluster(r: Registry, c: Cluster): (result: Result<Registry>) {
    if c.id == [] || c.domain == [] then Failure(Invalid)
    else if |c.endpoints| > MAX_ENDPOINTS_PER_CLUSTER then Failure(CapacityExceeded)
    else if exists e <- c.endpoints :: c.endpoints[e].cluster != c.id then Failure(Invalid)
    else if exists e <- c.endpoints :: c.endpoints[e].reserved > c.endpoints[e].capacity then
      Failure(CapacityExceeded)
    else if !HasRoom(r.clusters, c.id, MAX_CLUSTERS) then Failure(CapacityExceeded)
    else Success(r.(clusters := r.clusters[c.id := c]))
  }

  function PutLink(r: Registry, l: Link): (result: Result<Registry>) {
    if l.id == [] || l.a == [] || l.b == [] || l.a == l.b then Failure(Invalid)
    else if l.reserved > l.capacity then Failure(CapacityExceeded)
    else if !HasRoom(r.links, l.id, MAX_EDGES) then Failure(CapacityExceeded)
    else Success(r.(links := r.links[l.id := l]))
  }

  function PutPath(r: Registry, p: Path): (result: Result<Registry>) {
    if p.id == [] || p.a == [] || p.b == [] || p.hops == [] then Failure(Invalid)
    else if |p.hops| > MAX_PATH_HOPS then Failure(CapacityExceeded)
    else if !HasRoom(r.paths, p.id, MAX_PATHS) then Failure(CapacityExceeded)
    else Success(r.(paths := r.paths[p.id := p]))
  }

  function PutPolicy(r: Registry, p: PolicyRule): (result: Result<Registry>) {
    if p.id == [] || |p.id| > MAX_NAME_LENGTH || p.owner == [] then Failure(Invalid)
    else if !HasRoom(r.policies, p.id, MAX_POLICY_RULES) then Failure(CapacityExceeded)
    else Success(r.(policies := r.policies[p.id := p]))
  }

  function PutContract(r: Registry, c: Contract): (result: Result<Registry>) {
    if c.id == 0 || c.parties.first.cluster == [] || c.parties.second.cluster == [] then Failure(Invalid)
    else if c.parties.first.cluster == c.parties.second.cluster then Failure(Invalid)
    else if c.capacity > MAX_CAPACITY then Failure(Overflow)
    else if !HasRoom(r.contracts, c.id, MAX_CONTRACTS) then Failure(CapacityExceeded)
    else Success(r.(contracts := r.contracts[c.id := c]))
  }

  function PutGrant(r: Registry, g: Grant): (result: Result<Registry>) {
    if g.id == 0 || g.contract == 0 then Failure(Invalid)
    else if g.capacity > MAX_CAPACITY then Failure(Overflow)
    else if !HasRoom(r.grants, g.id, MAX_GRANTS) then Failure(CapacityExceeded)
    else Success(r.(grants := r.grants[g.id := g]))
  }

  function PutReservation(r: Registry, v: Reservation): (result: Result<Registry>) {
    if v.id == 0 then Failure(Invalid)
    else if !HasRoom(r.reservations, v.id, MAX_RESERVATIONS) then Failure(CapacityExceeded)
    else Success(r.(reservations := r.reservations[v.id := v]))
  }

  /** `Registry::append_audit`: bounded, and contiguous in sequence. */
  function AppendAudit(r: Registry, a: Audit): (result: Result<Registry>) {
    if |r.audit| >= MAX_AUDIT_RECORDS then Failure(CapacityExceeded)
    else if r.audit != [] && a.sequence != r.audit[|r.audit| - 1].sequence + 1 then Failure(Invalid)
    else Success(r.(audit := r.audit + [a]))
  }
}
