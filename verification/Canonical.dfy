/** The canonical encoding of the records (src/model/canonical.cpp, src/model/terms.cpp).
    An encoder's postcondition is its round trip with any trailing bytes; its precondition says which
    records are complete: what a decoder would refuse cannot be read back. */
module Canonical {
  import opened Model
  import opened Wire
  import opened Names

  predicate IsTime(t: int) { -I63 <= t < I63 }
  predicate IsCount(n: nat) { n <= MAX_GENERATION }
  predicate IsCapacity(n: nat) { n <= MAX_CAPACITY }
  predicate IsUuid(n: Uuid) { n < U128 }
  predicate IsDigest(n: Digest) { n < U256 }

  // ---- enumerations in declaration order ----

  const SOURCES :=
    [SourceUnspecified, AdminConfigured, AgentReported, DerivedFromTopology, RecoveredFromStore, Synthetic]
  const VERIFICATIONS := [Unverified, Verified, Failed, NotApplicable, VerificationUnsupported]
  const ENDPOINT_STATES := [EndpointUnknown, EndpointActive, EndpointSuspended, EndpointDraining, EndpointRetired]
  const CLUSTER_STATES := [ClusterUnknown, ClusterActive, ClusterSuspended, ClusterDraining, ClusterRetired]
  const LINK_KINDS := [KindUnknown, LoopbackTcp, SyntheticModel, OpticalInterconnect]
  const LINK_STATES := [LinkUnknown, LinkUp, LinkDegraded, LinkDown, LinkUnsupported]
  const PATH_STATES := [PathUnknown, PathUp, PathDegraded, PathDown]
  const CONTRACT_STATES := [
    Proposed, AwaitingConsent, Consented, ContractActive, ContractRefused, ContractWithdrawn, ContractExpired,
    ContractFenced]
  const GRANT_STATES := [
    Preparing, Prepared, Committed, GrantActive, GrantIndeterminate, Aborted, GrantFenced, GrantExpired, GrantWithdrawn]
  const DECISIONS := [ConsentAccepted, ConsentRefused]
  const AUTHENTICITIES := [NoAuthenticity, SharedKeyMac]
  const OUTCOMES := [
    Ok, Unknown, Unsupported, Stale, Conflicting, Incomplete, Indeterminate, Refused, Cancelled, Invalid, Unreachable,
    Partitioned, DegradedAuthorized, Fenced, Expired, Unauthorized, NotFound, CapacityExceeded, Replayed, Reincarnated,
    Corrupt, Incompatible, Overflow, Busy, AlreadyExists, Internal]

  function SourceCode(x: EvidenceSource): (i: nat)
    ensures i < |SOURCES| && SOURCES[i] == x
  {
    match x
    case SourceUnspecified => 0 case AdminConfigured => 1 case AgentReported => 2 case DerivedFromTopology => 3
    case RecoveredFromStore => 4 case Synthetic => 5
  }
  function TakeSource(b: Bytes): Parsed<EvidenceSource> { TakeEnum(b, SOURCES) }
  function PutSource(x: EvidenceSource, rest: Bytes): (b: Bytes)
    ensures TakeSource(b) == Success((x, rest))
  {
    PutEnum(SourceCode(x), SOURCES, rest)
  }

  function VerificationCode(x: VerificationState): (i: nat)
    ensures i < |VERIFICATIONS| && VERIFICATIONS[i] == x
  {
    match x
    case Unverified => 0 case Verified => 1 case Failed => 2 case NotApplicable => 3 case VerificationUnsupported => 4
  }
  function TakeVerification(b: Bytes): Parsed<VerificationState> { TakeEnum(b, VERIFICATIONS) }
  function PutVerification(x: VerificationState, rest: Bytes): (b: Bytes)
    ensures TakeVerification(b) == Success((x, rest))
  {
    PutEnum(VerificationCode(x), VERIFICATIONS, rest)
  }

  function EndpointStateCode(x: EndpointState): (i: nat)
    ensures i < |ENDPOINT_STATES| && ENDPOINT_STATES[i] == x
  {
    match x
    case EndpointUnknown => 0 case EndpointActive => 1 case EndpointSuspended => 2 case EndpointDraining => 3
    case EndpointRetired => 4
  }
  function TakeEndpointState(b: Bytes): Parsed<EndpointState> { TakeEnum(b, ENDPOINT_STATES) }
  function PutEndpointState(x: EndpointState, rest: Bytes): (b: Bytes)
    ensures TakeEndpointState(b) == Success((x, rest))
  {
    PutEnum(EndpointStateCode(x), ENDPOINT_STATES, rest)
  }

  function ClusterStateCode(x: ClusterState): (i: nat)
    ensures i < |CLUSTER_STATES| && CLUSTER_STATES[i] == x
  {
    match x
    case ClusterUnknown => 0 case ClusterActive => 1 case ClusterSuspended => 2 case ClusterDraining => 3
    case ClusterRetired => 4
  }
  function TakeClusterState(b: Bytes): Parsed<ClusterState> { TakeEnum(b, CLUSTER_STATES) }
  function PutClusterState(x: ClusterState, rest: Bytes): (b: Bytes)
    ensures TakeClusterState(b) == Success((x, rest))
  {
    PutEnum(ClusterStateCode(x), CLUSTER_STATES, rest)
  }

  function LinkKindCode(x: LinkKind): (i: nat)
    ensures i < |LINK_KINDS| && LINK_KINDS[i] == x
  {
    match x
    case KindUnknown => 0 case LoopbackTcp => 1 case SyntheticModel => 2 case OpticalInterconnect => 3
  }
  function TakeLinkKind(b: Bytes): Parsed<LinkKind> { TakeEnum16(b, LINK_KINDS) }
  function PutLinkKind(x: LinkKind, rest: Bytes): (b: Bytes)
    ensures TakeLinkKind(b) == Success((x, rest))
  {
    PutEnum16(LinkKindCode(x), LINK_KINDS, rest)
  }

  function LinkStateCode(x: LinkState): (i: nat)
    ensures i < |LINK_STATES| && LINK_STATES[i] == x
  {
    match x
    case LinkUnknown => 0 case LinkUp => 1 case LinkDegraded => 2 case LinkDown => 3 case LinkUnsupported => 4
  }
  function TakeLinkState(b: Bytes): Parsed<LinkState> { TakeEnum(b, LINK_STATES) }
  function PutLinkState(x: LinkState, rest: Bytes): (b: Bytes)
    ensures TakeLinkState(b) == Success((x, rest))
  {
    PutEnum(LinkStateCode(x), LINK_STATES, rest)
  }

  function PathStateCode(x: PathState): (i: nat)
    ensures i < |PATH_STATES| && PATH_STATES[i] == x
  {
    match x
    case PathUnknown => 0 case PathUp => 1 case PathDegraded => 2 case PathDown => 3
  }
  function TakePathState(b: Bytes): Parsed<PathState> { TakeEnum(b, PATH_STATES) }
  function PutPathState(x: PathState, rest: Bytes): (b: Bytes)
    ensures TakePathState(b) == Success((x, rest))
  {
    PutEnum(PathStateCode(x), PATH_STATES, rest)
  }

  function ContractStateCode(x: ContractState): (i: nat)
    ensures i < |CONTRACT_STATES| && CONTRACT_STATES[i] == x
  {
    match x
    case Proposed => 0 case AwaitingConsent => 1 case Consented => 2 case ContractActive => 3
    case ContractRefused => 4 case ContractWithdrawn => 5 case ContractExpired => 6 case ContractFenced => 7
  }
  function TakeContractState(b: Bytes): Parsed<ContractState> { TakeEnum(b, CONTRACT_STATES) }
  function PutContractState(x: ContractState, rest: Bytes): (b: Bytes)
    ensures TakeContractState(b) == Success((x, rest))
  {
    PutEnum(ContractStateCode(x), CONTRACT_STATES, rest)
  }

  function GrantStateCode(x: GrantState): (i: nat)
    ensures i < |GRANT_STATES| && GRANT_STATES[i] == x
  {
    match x
    case Preparing => 0 case Prepared => 1 case Committed => 2 case GrantActive => 3 case GrantIndeterminate => 4
    case Aborted => 5 case GrantFenced => 6 case GrantExpired => 7 case GrantWithdrawn => 8
  }
  function TakeGrantState(b: Bytes): Parsed<GrantState> { TakeEnum(b, GRANT_STATES) }
  function PutGrantState(x: GrantState, rest: Bytes): (b: Bytes)
    ensures TakeGrantState(b) == Success((x, rest))
  {
    PutEnum(GrantStateCode(x), GRANT_STATES, rest)
  }

  function DecisionCode(x: ConsentDecision): (i: nat)
    ensures i < |DECISIONS| && DECISIONS[i] == x
  {
    match x
    case ConsentAccepted => 0 case ConsentRefused => 1
  }
  function TakeDecision(b: Bytes): Parsed<ConsentDecision> { TakeEnum(b, DECISIONS) }
  function PutDecision(x: ConsentDecision, rest: Bytes): (b: Bytes)
    ensures TakeDecision(b) == Success((x, rest))
  {
    PutEnum(DecisionCode(x), DECISIONS, rest)
  }

  function AuthenticityCode(x: Authenticity): (i: nat)
    ensures i < |AUTHENTICITIES| && AUTHENTICITIES[i] == x
  {
    match x
    case NoAuthenticity => 0 case SharedKeyMac => 1
  }
  function TakeAuthenticity(b: Bytes): Parsed<Authenticity> { TakeEnum(b, AUTHENTICITIES) }
  function PutAuthenticity(x: Authenticity, rest: Bytes): (b: Bytes)
    ensures TakeAuthenticity(b) == Success((x, rest))
  {
    PutEnum(AuthenticityCode(x), AUTHENTICITIES, rest)
  }

  function OutcomeCode(x: Outcome): (i: nat)
    ensures i < |OUTCOMES| && OUTCOMES[i] == x
  {
    match x
    case Ok => 0 case Unknown => 1 case Unsupported => 2 case Stale => 3 case Conflicting => 4 case Incomplete => 5
    case Indeterminate => 6 case Refused => 7 case Cancelled => 8 case Invalid => 9 case Unreachable => 10
    case Partitioned => 11 case DegradedAuthorized => 12 case Fenced => 13 case Expired => 14 case Unauthorized => 15
    case NotFound => 16 case CapacityExceeded => 17 case Replayed => 18 case Reincarnated => 19 case Corrupt => 20
    case Incompatible => 21 case Overflow => 22 case Busy => 23 case AlreadyExists => 24 case Internal => 25
  }
  function TakeOutcome(b: Bytes): Parsed<Outcome> { TakeEnum16(b, OUTCOMES) }
  function PutOutcome(x: Outcome, rest: Bytes): (b: Bytes)
    ensures TakeOutcome(b) == Success((x, rest))
  {
    PutEnum16(OutcomeCode(x), OUTCOMES, rest)
  }

  // ---- provenance ----

  predicate CompleteProvenance(p: Provenance) {
    && IsTime(p.observedAt) && IsCount(p.revision) && IsUuid(p.session) && IsDigest(p.evidence)
  }

  function DecodeProvenance(b: Bytes): Parsed<Provenance> {
    var (source, b) :- TakeSource(b);
    var (verification, b) :- TakeVerification(b);
    var (observedAt, b) :- TakeI64(b);
    var (revision, b) :- TakeCounter(b, MAX_GENERATION);
    var (session, b) :- TakeUuid(b);
    var (evidence, b) :- TakeDigest(b);
    Success((Provenance(source, verification, observedAt, revision, session, evidence), b))
  }

  function EncodeProvenance(p: Provenance, rest: Bytes): (b: Bytes)
    requires CompleteProvenance(p)
    ensures DecodeProvenance(b) == Success((p, rest))
  {
    PutSource(p.source, PutVerification(p.verification, PutI64(p.observedAt,
    PutCounter(p.revision, MAX_GENERATION, PutUuid(p.session, PutDigest(p.evidence, rest))))))
  }

  // ---- incarnation, generation and policy generation, which always stand together ----

  predicate CompleteBinding(x: Binding) { IsUuid(x.incarnation) && IsCount(x.generation) && IsCount(x.policy) }

  function DecodeBinding(b: Bytes): Parsed<Binding> {
    var (incarnation, b) :- TakeUuid(b);
    var (generation, b) :- TakeCounter(b, MAX_GENERATION);
    var (policy, b) :- TakeCounter(b, MAX_GENERATION);
    Success((Binding(incarnation, generation, policy), b))
  }

  function EncodeBinding(x: Binding, rest: Bytes): (b: Bytes)
    requires CompleteBinding(x)
    ensures DecodeBinding(b) == Success((x, rest))
  {
    PutUuid(x.incarnation, PutCounter(x.generation, MAX_GENERATION, PutCounter(x.policy, MAX_GENERATION, rest)))
  }

  predicate CompleteBindings(x: Two<Binding>) { CompleteBinding(x.first) && CompleteBinding(x.second) }

  function DecodeBindings(b: Bytes): Parsed<Two<Binding>> {
    var (first, b) :- DecodeBinding(b);
    var (second, b) :- DecodeBinding(b);
    Success((Two(first, second), b))
  }

  function EncodeBindings(x: Two<Binding>, rest: Bytes): (b: Bytes)
    requires CompleteBindings(x)
    ensures DecodeBindings(b) == Success((x, rest))
  {
    EncodeBinding(x.first, EncodeBinding(x.second, rest))
  }

  // ---- endpoints and clusters ----

  predicate CompleteEndpoint(e: Endpoint) {
    && IsName(e.id) && IsName(e.cluster) && IsScope(e.notes.scope) && IsCapacity(e.capacity) && IsCapacity(e.reserved)
    && IsCount(e.policyGeneration) && CompleteProvenance(e.notes.provenance)
  }

  function DecodeEndpoint(b: Bytes): Parsed<Endpoint> {
    var (id, b) :- TakeName(b);
    var (cluster, b) :- TakeName(b);
    var (scope, b) :- TakeScope(b);
    var (capacity, b) :- TakeCounter(b, MAX_CAPACITY);
    var (reserved, b) :- TakeCounter(b, MAX_CAPACITY);
    var (policy, b) :- TakeCounter(b, MAX_GENERATION);
    var (state, b) :- TakeEndpointState(b);
    var (allowed, b) :- TakeBool(b);
    var (degraded, b) :- TakeBool(b);
    var (provenance, b) :- DecodeProvenance(b);
    Success((Endpoint(id, cluster, capacity, reserved, policy, state, allowed, degraded,
                      EndpointNotes(scope, provenance)), b))
  }

  function EncodeEndpoint(e: Endpoint, rest: Bytes): (b: Bytes)
    requires CompleteEndpoint(e)
    ensures DecodeEndpoint(b) == Success((e, rest))
  {
    PutName(e.id, PutName(e.cluster, PutScope(e.notes.scope,
    PutCounter(e.capacity, MAX_CAPACITY,
               PutCounter(e.reserved, MAX_CAPACITY, PutCounter(e.policyGeneration, MAX_GENERATION,
    PutEndpointState(e.state, PutBool(e.interClusterAllowed, PutBool(e.permitsDegraded,
    EncodeProvenance(e.notes.provenance, rest))))))))))
  }

  /** A repeated endpoint identity is refused. */
  function StoreEndpoint(m: map<Name, Endpoint>, e: Endpoint): Result<map<Name, Endpoint>> {
    if e.id in m then Failure(Invalid) else Success(m[e.id := e])
  }

  predicate CompleteEndpoints(m: map<Name, Endpoint>) {
    |m| <= MAX_ENDPOINTS_PER_CLUSTER && forall e <- m :: m[e].id == e && CompleteEndpoint(m[e])
  }

  function DecodeEndpoints(b: Bytes): Parsed<map<Name, Endpoint>> {
    TakeGroup(b, MAX_ENDPOINTS_PER_CLUSTER, DecodeEndpoint, StoreEndpoint, map[])
  }

  lemma EndpointRoundTrip(e: Endpoint)
    requires CompleteEndpoint(e)
    ensures RoundTrip(e, EncodeEndpoint, DecodeEndpoint)
  {
    forall rest: Bytes ensures DecodeEndpoint(EncodeEndpoint(e, rest)) == Success((e, rest)) {}
  }

  lemma SortedEnumerates(s: set<Name>)
    ensures Enumerates(SortedNames(s), s)
  {
    var keys := SortedNames(s);
    forall i, j | 0 <= i < j < |keys| ensures keys[i] != keys[j] { BeforeIrreflexive(keys[i]); }
  }

  ghost function EncodeEndpoints(m: map<Name, Endpoint>, rest: Bytes): (b: Bytes)
    requires CompleteEndpoints(m)
    ensures DecodeEndpoints(b) == Success((m, rest))
  {
    var keys := SortedNames(m.Keys);
    SortedEnumerates(m.Keys);
    assert forall k <- m :: RoundTrip(m[k], EncodeEndpoint, DecodeEndpoint) by {
      forall k | k in m ensures RoundTrip(m[k], EncodeEndpoint, DecodeEndpoint) { EndpointRoundTrip(m[k]); }
    }
    MapRoundTrip(m, keys, MAX_ENDPOINTS_PER_CLUSTER, EncodeEndpoint, DecodeEndpoint, StoreEndpoint,
                 (x: map<Name, Endpoint>) => x, (e: Endpoint) => e.id, (e: Endpoint) => true, rest);
    PutGroup(Records(m, keys), EncodeEndpoint, DecodeEndpoint, rest)
  }

  predicate CompleteClusterNotes(n: ClusterNotes) {
    && IsTime(n.lastSeen) && (n.conflictingGeneration.Some? ==> IsCount(n.conflictingGeneration.value))
    && IsCount(n.revision)
    && CompleteProvenance(n.provenance) && IsCount(n.incarnationChanges)
  }

  predicate CompleteCluster(c: Cluster) {
    && IsName(c.id) && IsName(c.domain) && IsUuid(c.incarnation) && IsCount(c.generation) && IsCount(c.policyGeneration)
    && CompleteEndpoints(c.endpoints) && IsDigest(c.contentDigest) && CompleteClusterNotes(c.notes)
  }

  /** A flag and a value that is always present. */
  function TakeConflict(b: Bytes): Parsed<Option<nat>> {
    var (present, b) :- TakeBool(b);
    var (generation, b) :- TakeCounter(b, MAX_GENERATION);
    Success((if present then Some(generation) else None, b))
  }

  function PutConflict(g: Option<nat>, rest: Bytes): (b: Bytes)
    requires g.Some? ==> IsCount(g.value)
    ensures TakeConflict(b) == Success((g, rest))
  {
    PutBool(g.Some?, PutCounter(if g.Some? then g.value else 0, MAX_GENERATION, rest))
  }

  datatype ClusterTail = ClusterTail(
    content: Digest, conflict: bool, conflicting: Option<nat>, revision: nat, provenance: Provenance, changes: nat)

  predicate CompleteClusterTail(t: ClusterTail) {
    && IsDigest(t.content) && (t.conflicting.Some? ==> IsCount(t.conflicting.value)) && IsCount(t.revision)
    && CompleteProvenance(t.provenance) && IsCount(t.changes)
  }

  function DecodeClusterTail(b: Bytes): Parsed<ClusterTail> {
    var (content, b) :- TakeDigest(b);
    var (conflict, b) :- TakeBool(b);
    var (conflicting, b) :- TakeConflict(b);
    var (revision, b) :- TakeCounter(b, MAX_GENERATION);
    var (provenance, b) :- DecodeProvenance(b);
    var (changes, b) :- TakeCounter(b, MAX_GENERATION);
    Success((ClusterTail(content, conflict, conflicting, revision, provenance, changes), b))
  }

  function EncodeClusterTail(t: ClusterTail, rest: Bytes): (b: Bytes)
    requires CompleteClusterTail(t)
    ensures DecodeClusterTail(b) == Success((t, rest))
  {
    PutDigest(t.content, PutBool(t.conflict, PutConflict(t.conflicting, PutCounter(t.revision, MAX_GENERATION,
    EncodeProvenance(t.provenance, PutCounter(t.changes, MAX_GENERATION, rest))))))
  }

  function TailOf(c: Cluster): ClusterTail {
    ClusterTail(c.contentDigest, c.generationConflict, c.notes.conflictingGeneration, c.notes.revision,
                c.notes.provenance, c.notes.incarnationChanges)
  }

  function DecodeCluster(b: Bytes): Parsed<Cluster> {
    var (id, b) :- TakeName(b);
    var (domain, b) :- TakeName(b);
    var (binding, b) :- DecodeBinding(b);
    var (state, b) :- TakeClusterState(b);
    var (withdrawn, b) :- TakeBool(b);
    var (lastSeen, b) :- TakeI64(b);
    var (endpoints, b) :- DecodeEndpoints(b);
    var (t, b) :- DecodeClusterTail(b);
    Success((Cluster(id, domain, binding.incarnation, binding.generation, binding.policy, state, withdrawn, endpoints,
                     t.content,
                     t.conflict, ClusterNotes(lastSeen, t.conflicting, t.revision, t.provenance, t.changes)), b))
  }

  ghost function EncodeCluster(c: Cluster, rest: Bytes): (b: Bytes)
    requires CompleteCluster(c)
    ensures DecodeCluster(b) == Success((c, rest))
  {
    PutName(c.id, PutName(c.domain, EncodeBinding(Binding(c.incarnation, c.generation, c.policyGeneration),
    PutClusterState(c.state, PutBool(c.consentWithdrawn, PutI64(c.notes.lastSeen,
    EncodeEndpoints(c.endpoints, EncodeClusterTail(TailOf(c), rest))))))))
  }

  // ---- links and paths ----

  predicate CompleteLink(l: Link) {
    && IsName(l.id) && IsName(l.a) && IsName(l.b)
    && IsCapacity(l.capacity) && IsCapacity(l.reserved) && l.latencyMicros < U32 && IsCount(l.revision)
    && CompleteProvenance(l.provenance)
  }

  function DecodeLink(b: Bytes): Parsed<Link> {
    var (id, b) :- TakeName(b);
    var (x, b) :- TakeName(b);
    var (y, b) :- TakeName(b);
    var (kind, b) :- TakeLinkKind(b);
    var (state, b) :- TakeLinkState(b);
    var (capacity, b) :- TakeCounter(b, MAX_CAPACITY);
    var (reserved, b) :- TakeCounter(b, MAX_CAPACITY);
    var (latency, b) :- TakeU32(b);
    var (revision, b) :- TakeCounter(b, MAX_GENERATION);
    var (provenance, b) :- DecodeProvenance(b);
    Success((Link(id, x, y, kind, state, capacity, reserved, latency, revision, provenance), b))
  }

  function EncodeLink(l: Link, rest: Bytes): (b: Bytes)
    requires CompleteLink(l)
    ensures DecodeLink(b) == Success((l, rest))
  {
    PutName(l.id, PutName(l.a, PutName(l.b, PutLinkKind(l.kind, PutLinkState(l.state,
    PutCounter(l.capacity, MAX_CAPACITY, PutCounter(l.reserved, MAX_CAPACITY, PutU32(l.latencyMicros,
    PutCounter(l.revision, MAX_GENERATION, EncodeProvenance(l.provenance, rest))))))))))
  }

  function AddHop(xs: seq<Name>, x: Name): Result<seq<Name>> { Success(xs + [x]) }

  lemma {:induction false} AppendingFolds(xs: seq<Name>, done: seq<Name>)
    ensures Fold(xs, AddHop, done) == Success(done + xs)
    decreases |xs|
  {
    if xs != [] {
      AppendingFolds(xs[1..], done + [xs[0]]);
      assert done + [xs[0]] + xs[1..] == done + xs;
    } else {
      assert done + xs == done;
    }
  }

  predicate CompleteHops(hops: seq<Name>) {
    |hops| <= MAX_PATH_HOPS && forall i | 0 <= i < |hops| :: IsName(hops[i])
  }

  function DecodeHops(b: Bytes): Parsed<seq<Name>> {
    TakeGroup(b, MAX_PATH_HOPS, TakeName, AddHop, [])
  }

  ghost function EncodeHops(hops: seq<Name>, rest: Bytes): (b: Bytes)
    requires CompleteHops(hops)
    ensures DecodeHops(b) == Success((hops, rest))
  {
    assert RoundTrips(hops, PutName, TakeName) by {
      forall i | 0 <= i < |hops| ensures RoundTrip(hops[i], PutName, TakeName) {
        forall rest: Bytes ensures TakeName(PutName(hops[i], rest)) == Success((hops[i], rest)) {}
      }
    }
    AppendingFolds(hops, []);
    assert [] + hops == hops;
    GroupRoundTrip(hops, MAX_PATH_HOPS, PutName, TakeName, AddHop, [], rest);
    PutGroup(hops, PutName, TakeName, rest)
  }

  predicate CompletePath(p: Path) {
    && IsName(p.id) && IsName(p.a) && IsName(p.b) && CompleteHops(p.hops) && IsCapacity(p.bottleneck)
    && IsCount(p.revision) && CompleteProvenance(p.provenance)
  }

  function DecodePath(b: Bytes): Parsed<Path> {
    var (id, b) :- TakeName(b);
    var (x, b) :- TakeName(b);
    var (y, b) :- TakeName(b);
    var (hops, b) :- DecodeHops(b);
    var (bottleneck, b) :- TakeCounter(b, MAX_CAPACITY);
    var (state, b) :- TakePathState(b);
    var (revision, b) :- TakeCounter(b, MAX_GENERATION);
    var (provenance, b) :- DecodeProvenance(b);
    var (unsupported, b) :- TakeBool(b);
    Success((Path(id, x, y, hops, bottleneck, state, revision, provenance, unsupported), b))
  }

  ghost function EncodePath(p: Path, rest: Bytes): (b: Bytes)
    requires CompletePath(p)
    ensures DecodePath(b) == Success((p, rest))
  {
    PutName(p.id, PutName(p.a, PutName(p.b, EncodeHops(p.hops, PutCounter(p.bottleneck, MAX_CAPACITY,
    PutPathState(p.state, PutCounter(p.revision, MAX_GENERATION,
    EncodeProvenance(p.provenance, PutBool(p.containsUnsupportedEdge, rest)))))))))
  }

  // ---- policy rules ----

  predicate OptionalName(n: Name) { n == [] || IsName(n) }

  predicate CompletePolicy(p: PolicyRule) {
    && p.id != [] && IsText(p.id, MAX_NAME_LENGTH) && IsName(p.owner)
    && OptionalName(p.clusterA) && OptionalName(p.clusterB) && OptionalName(p.endpointA) && OptionalName(p.endpointB)
    && IsCount(p.generation) && IsCapacity(p.maxCapacity) && IsCount(p.revision) && CompleteProvenance(p.provenance)
  }

  function TakePolicyId(b: Bytes): Parsed<Name> {
    var (id, b) :- TakeText(b);
    if id == [] || |id| > MAX_NAME_LENGTH then Failure(Invalid) else Success((id, b))
  }

  function PutPolicyId(id: Name, rest: Bytes): (b: Bytes)
    requires id != [] && IsText(id, MAX_NAME_LENGTH)
    ensures TakePolicyId(b) == Success((id, rest))
  {
    PutText(id, rest)
  }

  /** The clusters and endpoints a rule is about; empty ones match anything. */
  datatype RuleScope = RuleScope(clusterA: Name, clusterB: Name, endpointA: Name, endpointB: Name)

  predicate CompleteScope(x: RuleScope) {
    OptionalName(x.clusterA) && OptionalName(x.clusterB) && OptionalName(x.endpointA) && OptionalName(x.endpointB)
  }

  function DecodeRuleScope(b: Bytes): Parsed<RuleScope> {
    var (clusterA, b) :- TakeOptionalName(b);
    var (clusterB, b) :- TakeOptionalName(b);
    var (endpointA, b) :- TakeOptionalName(b);
    var (endpointB, b) :- TakeOptionalName(b);
    Success((RuleScope(clusterA, clusterB, endpointA, endpointB), b))
  }

  function EncodeRuleScope(x: RuleScope, rest: Bytes): (b: Bytes)
    requires CompleteScope(x)
    ensures DecodeRuleScope(b) == Success((x, rest))
  {
    PutOptionalName(x.clusterA,
                    PutOptionalName(x.clusterB, PutOptionalName(x.endpointA, PutOptionalName(x.endpointB, rest))))
  }

  function DecodePolicy(b: Bytes): Parsed<PolicyRule> {
    var (id, b) :- TakePolicyId(b);
    var (owner, b) :- TakeName(b);
    var (x, b) :- DecodeRuleScope(b);
    var (generation, b) :- TakeCounter(b, MAX_GENERATION);
    var (allow, b) :- TakeBool(b);
    var (degraded, b) :- TakeBool(b);
    var (maxCapacity, b) :- TakeCounter(b, MAX_CAPACITY);
    var (revision, b) :- TakeCounter(b, MAX_GENERATION);
    var (provenance, b) :- DecodeProvenance(b);
    Success((PolicyRule(id, owner, x.clusterA, x.clusterB, x.endpointA, x.endpointB, generation, allow, degraded,
                        maxCapacity, revision, provenance), b))
  }

  function EncodePolicy(p: PolicyRule, rest: Bytes): (b: Bytes)
    requires CompletePolicy(p)
    ensures DecodePolicy(b) == Success((p, rest))
  {
    PutPolicyId(p.id, PutName(p.owner, EncodeRuleScope(RuleScope(p.clusterA, p.clusterB, p.endpointA, p.endpointB),
    PutCounter(p.generation, MAX_GENERATION, PutBool(p.allow, PutBool(p.allowDegraded,
    PutCounter(p.maxCapacity, MAX_CAPACITY,
               PutCounter(p.revision, MAX_GENERATION, EncodeProvenance(p.provenance, rest)))))))))
  }

  // ---- contracts ----

  predicate CompleteParty(p: Party) { IsName(p.cluster) && IsName(p.endpoint) && IsName(p.domain) }

  function DecodeParty(b: Bytes): Parsed<Party> {
    var (cluster, b) :- TakeName(b);
    var (endpoint, b) :- TakeName(b);
    var (domain, b) :- TakeName(b);
    Success((Party(cluster, endpoint, domain), b))
  }

  function EncodeParty(p: Party, rest: Bytes): (b: Bytes)
    requires CompleteParty(p)
    ensures DecodeParty(b) == Success((p, rest))
  {
    PutName(p.cluster, PutName(p.endpoint, PutName(p.domain, rest)))
  }

  predicate CompleteConsent(k: Consent) {
    && IsName(k.cluster) && IsName(k.endpoint) && IsUuid(k.incarnation) && IsCount(k.generation)
    && IsCount(k.policyGeneration)
    && IsCount(k.agentTerm) && IsDigest(k.termsDigest) && CompleteConsentNotes(k.notes)
  }

  predicate CompleteConsentNotes(n: ConsentNotes) {
    IsTime(n.decidedAt) && IsUuid(n.session) && IsText(n.reason, MAX_STRING_FIELD)
  }

  function DecodeConsentNotes(b: Bytes): Parsed<ConsentNotes> {
    var (decidedAt, b) :- TakeI64(b);
    var (session, b) :- TakeUuid(b);
    var (authenticity, b) :- TakeAuthenticity(b);
    var (reason, b) :- TakeText(b);
    Success((ConsentNotes(decidedAt, session, authenticity, reason), b))
  }

  function EncodeConsentNotes(n: ConsentNotes, rest: Bytes): (b: Bytes)
    requires CompleteConsentNotes(n)
    ensures DecodeConsentNotes(b) == Success((n, rest))
  {
    PutI64(n.decidedAt, PutUuid(n.session, PutAuthenticity(n.authenticity, PutText(n.reason, rest))))
  }

  function DecodeConsent(b: Bytes): Parsed<Consent> {
    var (cluster, b) :- TakeName(b);
    var (endpoint, b) :- TakeName(b);
    var (binding, b) :- DecodeBinding(b);
    var (term, b) :- TakeCounter(b, MAX_GENERATION);
    var (digest, b) :- TakeDigest(b);
    var (decision, b) :- TakeDecision(b);
    var (notes, b) :- DecodeConsentNotes(b);
    Success((Consent(cluster, endpoint, binding.incarnation, binding.generation, binding.policy, term, digest,
                     decision, notes), b))
  }

  function EncodeConsent(k: Consent, rest: Bytes): (b: Bytes)
    requires CompleteConsent(k)
    ensures DecodeConsent(b) == Success((k, rest))
  {
    PutName(k.cluster, PutName(k.endpoint, EncodeBinding(Binding(k.incarnation, k.generation, k.policyGeneration),
    PutCounter(k.agentTerm, MAX_GENERATION, PutDigest(k.termsDigest, PutDecision(k.decision,
    EncodeConsentNotes(k.notes, rest)))))))
  }

  function DecodeOptionalConsent(b: Bytes): Parsed<Option<Consent>> {
    var (present, b) :- TakeBool(b);
    if !present then Success((None, b))
    else
      var (consent, b) :- DecodeConsent(b);
      Success((Some(consent), b))
  }

  function EncodeOptionalConsent(k: Option<Consent>, rest: Bytes): (b: Bytes)
    requires k.Some? ==> CompleteConsent(k.value)
    ensures DecodeOptionalConsent(b) == Success((k, rest))
  {
    PutBool(k.Some?, if k.Some? then EncodeConsent(k.value, rest) else rest)
  }

  predicate IsLease(d: int) { 0 <= d <= MAX_DURATION_NANOS }

  function TakeLease(b: Bytes): Parsed<int> {
    var (d, b) :- TakeI64(b);
    if d < 0 || d > MAX_DURATION_NANOS then Failure(Invalid) else Success((d, b))
  }

  function PutLease(d: int, rest: Bytes): (b: Bytes)
    requires IsLease(d)
    ensures TakeLease(b) == Success((d, rest))
  {
    PutI64(d, rest)
  }

  predicate CompleteParties(p: Two<Party>) { CompleteParty(p.first) && CompleteParty(p.second) }

  function DecodeParties(b: Bytes): Parsed<Two<Party>> {
    var (first, b) :- DecodeParty(b);
    var (second, b) :- DecodeParty(b);
    Success((Two(first, second), b))
  }

  function EncodeParties(p: Two<Party>, rest: Bytes): (b: Bytes)
    requires CompleteParties(p)
    ensures DecodeParties(b) == Success((p, rest))
  {
    EncodeParty(p.first, EncodeParty(p.second, rest))
  }

  predicate CompleteConsents(k: Two<Option<Consent>>) {
    (k.first.Some? ==> CompleteConsent(k.first.value)) && (k.second.Some? ==> CompleteConsent(k.second.value))
  }

  function DecodeConsents(b: Bytes): Parsed<Two<Option<Consent>>> {
    var (first, b) :- DecodeOptionalConsent(b);
    var (second, b) :- DecodeOptionalConsent(b);
    Success((Two(first, second), b))
  }

  function EncodeConsents(k: Two<Option<Consent>>, rest: Bytes): (b: Bytes)
    requires CompleteConsents(k)
    ensures DecodeConsents(b) == Success((k, rest))
  {
    EncodeOptionalConsent(k.first, EncodeOptionalConsent(k.second, rest))
  }

  predicate CompleteContractNotes(n: ContractNotes) {
    IsTime(n.createdAt) && IsCount(n.revision) && CompleteProvenance(n.provenance)
  }

  function DecodeContractTail(b: Bytes): Parsed<(Time, ContractNotes)> {
    var (createdAt, b) :- TakeI64(b);
    var (updatedAt, b) :- TakeI64(b);
    var (revision, b) :- TakeCounter(b, MAX_GENERATION);
    var (provenance, b) :- DecodeProvenance(b);
    Success(((updatedAt, ContractNotes(createdAt, revision, provenance)), b))
  }

  lemma ContractTailParts(
      first: Bytes, second: Bytes, third: Bytes, last: Bytes, updatedAt: Time, n: ContractNotes, rest: Bytes)
    requires TakeI64(first) == Success((n.createdAt, second)) && TakeI64(second) == Success((updatedAt, third))
    requires TakeCounter(third, MAX_GENERATION) == Success((n.revision, last))
    requires DecodeProvenance(last) == Success((n.provenance, rest))
    ensures DecodeContractTail(first) == Success(((updatedAt, n), rest))
  {
  }

  function EncodeContractTail(updatedAt: Time, n: ContractNotes, rest: Bytes): (b: Bytes)
    requires IsTime(updatedAt) && CompleteContractNotes(n)
    ensures DecodeContractTail(b) == Success(((updatedAt, n), rest))
  {
    var c := EncodeProvenance(n.provenance, rest);
    var b := PutCounter(n.revision, MAX_GENERATION, c);
    var a := PutI64(updatedAt, b);
    ContractTailParts(PutI64(n.createdAt, a), a, b, c, updatedAt, n, rest);
    PutI64(n.createdAt, a)
  }

  predicate CompleteContract(c: Contract) {
    && IsUuid(c.id) && CompleteParties(c.parties) && c.parties.first.cluster != c.parties.second.cluster
    && IsCapacity(c.capacity) && IsLease(c.leaseDuration) && IsDigest(c.termsDigest)
    && CompleteConsents(c.consents) && IsTime(c.updatedAt) && CompleteContractNotes(c.notes)
  }

  datatype ContractDeal = ContractDeal(capacity: nat, lease: int, digest: Digest, state: ContractState)

  predicate CompleteDeal(d: ContractDeal) { IsCapacity(d.capacity) && IsLease(d.lease) && IsDigest(d.digest) }

  function DecodeDeal(b: Bytes): Parsed<ContractDeal> {
    var (capacity, b) :- TakeCounter(b, MAX_CAPACITY);
    var (lease, b) :- TakeLease(b);
    var (digest, b) :- TakeDigest(b);
    var (state, b) :- TakeContractState(b);
    Success((ContractDeal(capacity, lease, digest, state), b))
  }

  function EncodeDeal(d: ContractDeal, rest: Bytes): (b: Bytes)
    requires CompleteDeal(d)
    ensures DecodeDeal(b) == Success((d, rest))
  {
    PutCounter(d.capacity, MAX_CAPACITY, PutLease(d.lease, PutDigest(d.digest, PutContractState(d.state, rest))))
  }

  function DecodeContract(b: Bytes): Parsed<Contract> {
    var (id, b) :- TakeUuid(b);
    var (parties, b) :- DecodeParties(b);
    if parties.first.cluster == parties.second.cluster then Failure(Invalid)
    else
      var (deal, b) :- DecodeDeal(b);
      var (consents, b) :- DecodeConsents(b);
      var (tail, b) :- DecodeContractTail(b);
      Success((Contract(id, parties, deal.capacity, deal.lease, deal.digest, deal.state, consents, tail.0, tail.1), b))
  }

  function EncodeContract(c: Contract, rest: Bytes): (b: Bytes)
    requires CompleteContract(c)
    ensures DecodeContract(b) == Success((c, rest))
  {
    PutUuid(c.id, EncodeParties(c.parties, EncodeDeal(ContractDeal(c.capacity, c.leaseDuration, c.termsDigest, c.state),
    EncodeConsents(c.consents, EncodeContractTail(c.updatedAt, c.notes, rest)))))
  }

  // ---- grants ----

  const MAX_ATTEMPTS := MAX_REVALIDATE_ATTEMPTS * 4096

  predicate CompleteGrantNotes(n: GrantNotes) {
    && IsDigest(n.enforcement.first) && IsDigest(n.enforcement.second) && n.revalidateAttempts <= MAX_ATTEMPTS
    && IsText(n.note, MAX_STRING_FIELD) && IsCount(n.revision) && CompleteProvenance(n.provenance)
  }

  predicate CompleteGrant(g: Grant) {
    && IsUuid(g.id) && IsUuid(g.contract) && IsDigest(g.termsDigest) && IsCount(g.term) && IsUuid(g.coordinator)
    && IsUuid(g.attempt)
    && CompleteBindings(g.bindings) && IsCapacity(g.capacity)
    && IsTime(g.issuedAt) && IsTime(g.validUntil) && CompleteGrantNotes(g.notes)
  }

  /** Both acknowledgements with their enforcement digests. */
  function DecodeAcknowledgements(b: Bytes): Parsed<(Two<bool>, Two<Digest>)> {
    var (one, b) :- TakeBool(b);
    var (oneDigest, b) :- TakeDigest(b);
    var (two, b) :- TakeBool(b);
    var (twoDigest, b) :- TakeDigest(b);
    Success(((Two(one, two), Two(oneDigest, twoDigest)), b))
  }

  function EncodeAcknowledgements(x: Two<bool>, d: Two<Digest>, rest: Bytes): (b: Bytes)
    requires IsDigest(d.first) && IsDigest(d.second)
    ensures DecodeAcknowledgements(b) == Success(((x, d), rest))
  {
    PutBool(x.first, PutDigest(d.first, PutBool(x.second, PutDigest(d.second, rest))))
  }

  function DecodeGrantTail(b: Bytes): Parsed<(Two<bool>, GrantNotes)> {
    var (acknowledged, b) :- DecodeAcknowledgements(b);
    var (attempts, b) :- TakeCounter(b, MAX_ATTEMPTS);
    var (note, b) :- TakeText(b);
    var (revision, b) :- TakeCounter(b, MAX_GENERATION);
    var (provenance, b) :- DecodeProvenance(b);
    Success(((acknowledged.0, GrantNotes(acknowledged.1, attempts, note, revision, provenance)), b))
  }

  function EncodeGrantTail(acknowledged: Two<bool>, n: GrantNotes, rest: Bytes): (b: Bytes)
    requires CompleteGrantNotes(n)
    ensures DecodeGrantTail(b) == Success(((acknowledged, n), rest))
  {
    EncodeAcknowledgements(acknowledged, n.enforcement, PutCounter(n.revalidateAttempts, MAX_ATTEMPTS, PutText(n.note,
    PutCounter(n.revision, MAX_GENERATION, EncodeProvenance(n.provenance, rest)))))
  }

  datatype GrantHead = GrantHead(id: Uuid, contract: Uuid, digest: Digest, term: nat, coordinator: Uuid, attempt: Uuid)

  predicate CompleteGrantHead(h: GrantHead) {
    && IsUuid(h.id) && IsUuid(h.contract) && IsDigest(h.digest) && IsCount(h.term) && IsUuid(h.coordinator)
    && IsUuid(h.attempt)
  }

  function DecodeGrantHead(b: Bytes): Parsed<GrantHead> {
    var (id, b) :- TakeUuid(b);
    var (contract, b) :- TakeUuid(b);
    var (digest, b) :- TakeDigest(b);
    var (term, b) :- TakeCounter(b, MAX_GENERATION);
    var (coordinator, b) :- TakeUuid(b);
    var (attempt, b) :- TakeUuid(b);
    Success((GrantHead(id, contract, digest, term, coordinator, attempt), b))
  }

  function EncodeGrantHead(h: GrantHead, rest: Bytes): (b: Bytes)
    requires CompleteGrantHead(h)
    ensures DecodeGrantHead(b) == Success((h, rest))
  {
    PutUuid(h.id, PutUuid(h.contract, PutDigest(h.digest, PutCounter(h.term, MAX_GENERATION, PutUuid(h.coordinator,
    PutUuid(h.attempt, rest))))))
  }

  datatype GrantLease = GrantLease(capacity: nat, issuedAt: Time, validUntil: Time, state: GrantState)

  predicate CompleteGrantLease(l: GrantLease) {
    IsCapacity(l.capacity) && IsTime(l.issuedAt) && IsTime(l.validUntil)
  }

  function DecodeGrantLease(b: Bytes): Parsed<GrantLease> {
    var (capacity, b) :- TakeCounter(b, MAX_CAPACITY);
    var (issuedAt, b) :- TakeI64(b);
    var (validUntil, b) :- TakeI64(b);
    var (state, b) :- TakeGrantState(b);
    Success((GrantLease(capacity, issuedAt, validUntil, state), b))
  }

  function EncodeGrantLease(l: GrantLease, rest: Bytes): (b: Bytes)
    requires CompleteGrantLease(l)
    ensures DecodeGrantLease(b) == Success((l, rest))
  {
    PutCounter(l.capacity, MAX_CAPACITY, PutI64(l.issuedAt, PutI64(l.validUntil, PutGrantState(l.state, rest))))
  }

  function DecodeGrant(b: Bytes): Parsed<Grant> {
    var (h, b) :- DecodeGrantHead(b);
    var (bindings, b) :- DecodeBindings(b);
    var (l, b) :- DecodeGrantLease(b);
    var (tail, b) :- DecodeGrantTail(b);
    Success((Grant(h.id, h.contract, h.digest, h.term, h.coordinator, h.attempt, bindings, l.capacity, l.issuedAt,
                   l.validUntil, l.state, tail.0, tail.1), b))
  }

  function EncodeGrant(g: Grant, rest: Bytes): (b: Bytes)
    requires CompleteGrant(g)
    ensures DecodeGrant(b) == Success((g, rest))
  {
    EncodeGrantHead(GrantHead(g.id, g.contract, g.termsDigest, g.term, g.coordinator, g.attempt),
    EncodeBindings(g.bindings, EncodeGrantLease(GrantLease(g.capacity, g.issuedAt, g.validUntil, g.state),
    EncodeGrantTail(g.acknowledged, g.notes, rest))))
  }

  // ---- reservations and audit lines ----

  predicate CompleteReservation(v: Reservation) {
    && IsUuid(v.id) && IsUuid(v.grant) && IsName(v.endpoint) && IsName(v.cluster) && IsCapacity(v.amount)
    && IsTime(v.notes.createdAt) && IsTime(v.notes.releasedAt) && IsCount(v.notes.revision)
    && CompleteProvenance(v.notes.provenance)
  }

  function DecodeReservation(b: Bytes): Parsed<Reservation> {
    var (id, b) :- TakeUuid(b);
    var (grant, b) :- TakeUuid(b);
    var (endpoint, b) :- TakeName(b);
    var (cluster, b) :- TakeName(b);
    var (amount, b) :- TakeCounter(b, MAX_CAPACITY);
    var (released, b) :- TakeBool(b);
    var (createdAt, b) :- TakeI64(b);
    var (releasedAt, b) :- TakeI64(b);
    var (revision, b) :- TakeCounter(b, MAX_GENERATION);
    var (provenance, b) :- DecodeProvenance(b);
    Success((Reservation(id, grant, endpoint, cluster, amount, released,
                         ReservationNotes(createdAt, releasedAt, revision, provenance)), b))
  }

  function EncodeReservation(v: Reservation, rest: Bytes): (b: Bytes)
    requires CompleteReservation(v)
    ensures DecodeReservation(b) == Success((v, rest))
  {
    PutUuid(v.id, PutUuid(v.grant, PutName(v.endpoint, PutName(v.cluster, PutCounter(v.amount, MAX_CAPACITY,
    PutBool(v.released,
            PutI64(v.notes.createdAt, PutI64(v.notes.releasedAt, PutCounter(v.notes.revision, MAX_GENERATION,
    EncodeProvenance(v.notes.provenance, rest))))))))))
  }

  predicate CompleteAudit(a: Audit) {
    && a.sequence < U64 && IsTime(a.at)
    && IsText(a.text.actor, MAX_STRING_FIELD) && IsText(a.text.action, MAX_STRING_FIELD)
    && IsText(a.text.subject, MAX_STRING_FIELD) && IsText(a.text.detail, MAX_STRING_FIELD)
  }

  function DecodeAudit(b: Bytes): Parsed<Audit> {
    var (sequence, b) :- TakeU64(b);
    var (at, b) :- TakeI64(b);
    var (actor, b) :- TakeText(b);
    var (action, b) :- TakeText(b);
    var (subject, b) :- TakeText(b);
    var (outcome, b) :- TakeOutcome(b);
    var (detail, b) :- TakeText(b);
    Success((Audit(sequence, at, outcome, AuditText(actor, action, subject, detail)), b))
  }

  function EncodeAudit(a: Audit, rest: Bytes): (b: Bytes)
    requires CompleteAudit(a)
    ensures DecodeAudit(b) == Success((a, rest))
  {
    PutU64(a.sequence, PutI64(a.at, PutText(a.text.actor, PutBlob(a.text.action, MAX_STRING_FIELD,
    PutText(a.text.subject, PutOutcome(a.outcome,
    PutText(a.text.detail, rest)))))))
  }

  // ---- terms ----

  predicate CompleteTerms(t: Terms) {
    && CompleteParties(t.parties) && IsCapacity(t.capacity) && IsLease(t.leaseDuration)
    && CompleteBindings(t.bindings) && IsTime(t.proposedAt)
  }

  function DecodeTerms(b: Bytes): Parsed<Terms> {
    var (parties, b) :- DecodeParties(b);
    var (capacity, b) :- TakeCounter(b, MAX_CAPACITY);
    var (lease, b) :- TakeLease(b);
    var (i, b) :- TakeUuid(b);
    var (j, b) :- TakeUuid(b);
    var (g, b) :- TakeCounter(b, MAX_GENERATION);
    var (h, b) :- TakeCounter(b, MAX_GENERATION);
    var (p, b) :- TakeCounter(b, MAX_GENERATION);
    var (q, b) :- TakeCounter(b, MAX_GENERATION);
    var (at, b) :- TakeI64(b);
    Success((Terms(parties, capacity, lease, Two(Binding(i, g, p), Binding(j, h, q)), at), b))
  }

  function EncodeTerms(t: Terms, rest: Bytes): (b: Bytes)
    requires CompleteTerms(t)
    ensures DecodeTerms(b) == Success((t, rest))
  {
    var x, y := t.bindings.first, t.bindings.second;
    EncodeParties(t.parties, PutCounter(t.capacity, MAX_CAPACITY, PutLease(t.leaseDuration,
    PutUuid(x.incarnation,
            PutUuid(y.incarnation, PutCounter(x.generation, MAX_GENERATION, PutCounter(y.generation, MAX_GENERATION,
    PutCounter(x.policy, MAX_GENERATION, PutCounter(y.policy, MAX_GENERATION, PutI64(t.proposedAt, rest))))))))))
  }

  /** No encoding of terms is a prefix of another: different terms never share an encoding, whatever
      follows. */
  lemma TermsInjective(t: Terms, u: Terms, rest: Bytes, more: Bytes)
    requires CompleteTerms(t) && CompleteTerms(u) && EncodeTerms(t, rest) == EncodeTerms(u, more)
    ensures t == u && rest == more
  {
    assert DecodeTerms(EncodeTerms(t, rest)) == Success((t, rest));
    assert DecodeTerms(EncodeTerms(u, more)) == Success((u, more));
  }

  /** `ContractTerms::digest`, with the hash as a parameter. */
  function TermsDigest(hash: Bytes -> Digest, t: Terms): Digest
    requires CompleteTerms(t)
  {
    hash(EncodeTerms(t, []))
  }

  /** A hash that does not collide on two encodings does not collide on the terms. */
  lemma DigestInjective(hash: Bytes -> Digest, t: Terms, u: Terms)
    requires CompleteTerms(t) && CompleteTerms(u)
    requires hash(EncodeTerms(t, [])) == hash(EncodeTerms(u, [])) ==> EncodeTerms(t, []) == EncodeTerms(u, [])
    ensures TermsDigest(hash, t) == TermsDigest(hash, u) <==> t == u
  {
    if TermsDigest(hash, t) == TermsDigest(hash, u) { TermsInjective(t, u, [], []); }
  }
}
