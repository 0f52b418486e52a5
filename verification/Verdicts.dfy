/** Which verdict a decision gives, told by the fields of the records: the first fault in the order of the checks
    (src/runtime/engine.cpp), and which grant, contract and owner are looked at. */
module Verdicts {
  import opened Model
  import opened Names
  import opened Policy
  import opened Engine
  import opened PolicyScope

  // ---- the first fault ----

  /** A condition that stands in the way, and the outcome it gives. */
  datatype Fault = Fault(found: bool, outcome: Outcome)

  function FirstFault(faults: seq<Fault>): Outcome
    decreases |faults|
  {
    if faults == [] then Ok else if faults[0].found then faults[0].outcome else FirstFault(faults[1..])
  }

  lemma FaultAt(f: seq<Fault>, k: nat)
    requires k < |f|
    ensures FirstFault(f[k..]) == if f[k].found then f[k].outcome else FirstFault(f[k + 1..])
  {
    assert f[k..][1..] == f[k + 1..];
  }

  lemma FaultsEnd(f: seq<Fault>)
    ensures FirstFault(f[|f|..]) == Ok && f[0..] == f
  {
  }

  lemma {:induction false} FaultsAppend(a: seq<Fault>, b: seq<Fault>)
    requires forall i | 0 <= i < |a| :: a[i].outcome != Ok
    ensures FirstFault(a + b) == if FirstFault(a) != Ok then FirstFault(a) else FirstFault(b)
    decreases |a|
  {
    if a == [] {
      assert a + b == b;
    } else {
      assert (a + b)[1..] == a[1..] + b;
      FaultsAppend(a[1..], b);
    }
  }

  function ClusterFaults(c: Cluster): seq<Fault> {
    [Fault(c.state == ClusterUnknown, Unknown), Fault(c.state in {ClusterSuspended, ClusterDraining}, Refused),
     Fault(c.state == ClusterRetired, Fenced), Fault(c.generationConflict, Conflicting),
       Fault(c.consentWithdrawn, Refused)]
  }

  function EndpointFaults(e: Endpoint): seq<Fault> {
    [Fault(e.state == EndpointUnknown, Unknown), Fault(e.state in {EndpointSuspended, EndpointDraining}, Refused),
     Fault(e.state == EndpointRetired, Fenced), Fault(!e.interClusterAllowed, Refused)]
  }

  function GenerationFaults(q: Query, s: Cluster, t: Cluster): seq<Fault> {
    [Fault(q.sourceGeneration.Some? && q.sourceGeneration.value != s.generation, Stale),
     Fault(q.targetGeneration.Some? && q.targetGeneration.value != t.generation, Stale)]
  }

  lemma ClusterVerdict(c: Cluster)
    ensures CheckCluster(c) == FirstFault(ClusterFaults(c))
  {
    var f := ClusterFaults(c);
    FaultAt(f, 0);
    FaultAt(f, 1);
    FaultAt(f, 2);
    FaultAt(f, 3);
    FaultAt(f, 4);
    FaultsEnd(f);
  }

  lemma EndpointVerdict(e: Endpoint)
    ensures CheckEndpoint(e) == FirstFault(EndpointFaults(e))
  {
    var f := EndpointFaults(e);
    FaultAt(f, 0);
    FaultAt(f, 1);
    FaultAt(f, 2);
    FaultAt(f, 3);
    FaultsEnd(f);
  }

  lemma GenerationVerdict(q: Query, s: Cluster, t: Cluster)
    ensures FirstFault(GenerationFaults(q, s, t))
         == if GenerationExpected(q.sourceGeneration, s.generation)
           && GenerationExpected(q.targetGeneration, t.generation)
            then Ok else Stale
  {
    var f := GenerationFaults(q, s, t);
    FaultAt(f, 0);
    FaultAt(f, 1);
    FaultsEnd(f);
  }

  /** Both clusters, then both endpoints, then the generations the caller expects. */
  function PairFaults(q: Query, s: Cluster, t: Cluster): seq<Fault>
    requires q.source in s.endpoints && q.target in t.endpoints
  {
    ClusterFaults(s) + (ClusterFaults(t) + (EndpointFaults(s.endpoints[q.source])
    + (EndpointFaults(t.endpoints[q.target]) + GenerationFaults(q, s, t))))
  }

  /** The verdict on a pair is its first fault. */
  lemma PairVerdict(q: Query, s: Cluster, t: Cluster)
    requires q.source in s.endpoints && q.target in t.endpoints
    ensures CheckPair(q, s, t) == FirstFault(PairFaults(q, s, t))
  {
    var a, b := EndpointFaults(s.endpoints[q.source]), EndpointFaults(t.endpoints[q.target]);
    var c := GenerationFaults(q, s, t);
    FaultsAppend(ClusterFaults(s), ClusterFaults(t) + (a + (b + c)));
    FaultsAppend(ClusterFaults(t), a + (b + c));
    FaultsAppend(a, b + c);
    FaultsAppend(b, c);
    ClusterVerdict(s);
    ClusterVerdict(t);
    EndpointVerdict(s.endpoints[q.source]);
    EndpointVerdict(t.endpoints[q.target]);
    GenerationVerdict(q, s, t);
  }

  // ---- policy and paths ----

  /** Some path between the two endpoints is in this state and, as told, has an unsupported edge or none. */
  predicate PathSeen(paths: map<Name, Path>, a: Name, b: Name, unsupported: bool, state: PathState) {
    exists p <- paths ::
      && ((paths[p].a == a && paths[p].b == b) || (paths[p].a == b && paths[p].b == a))
      && paths[p].containsUnsupportedEdge == unsupported && paths[p].state == state
  }

  predicate UnsupportedSeen(paths: map<Name, Path>, a: Name, b: Name) {
    exists p <- paths ::
      && ((paths[p].a == a && paths[p].b == b) || (paths[p].a == b && paths[p].b == a))
      && paths[p].containsUnsupportedEdge
  }

  /** A path that is up makes the pair healthy; otherwise one that is degraded is the best there is; without
      either the pair is unknown, unsupported or partitioned, in this order. */
  lemma PathVerdict(paths: map<Name, Path>, a: Name, b: Name)
    ensures var v := Paths(paths, a, b);
            && (v == Healthy <==> PathSeen(paths, a, b, false, PathUp))
            && (v == OnlyDegraded <==>
                !PathSeen(paths, a, b, false, PathUp) && PathSeen(paths, a, b, false, PathDegraded))
            && (v.Blocked? ==> v.outcome == if PathSeen(paths, a, b, false, PathUnknown) then Unknown
                                            else if UnsupportedSeen(paths, a, b) then Unsupported else Partitioned)
  {
    forall state ensures SeesState(paths, a, b, state) <==> PathSeen(paths, a, b, false, state) {
      if SeesState(paths, a, b, state) {
        var p :| p in paths && Between(paths[p], a, b) && !paths[p].containsUnsupportedEdge && paths[p].state == state;
        assert p in paths.Keys;
      }
    }
  }

  /** What the rules and the paths say against a pair. */
  function RuleFaults(m: PolicyDecision, p: PathVerdict): seq<Fault> {
    [Fault(m == RefusedExplicitly, Refused), Fault(m == StaleGeneration, Stale),
     Fault(m == MissingAllowRule, Unauthorized), Fault(p == Blocked(Unknown), Unknown),
     Fault(p == Blocked(Unsupported), Unsupported), Fault(p == Blocked(Partitioned), Partitioned)]
  }

  lemma RuleVerdict(m: PolicyDecision, p: PathVerdict)
    requires p.Blocked? ==> p.outcome in {Unknown, Unsupported, Partitioned}
    ensures FirstFault(RuleFaults(m, p)) == if m != Allowed then PolicyOutcome(m) else if p.Blocked? then p.outcome
            else Ok
  {
    var f := RuleFaults(m, p);
    FaultAt(f, 0);
    FaultAt(f, 1);
    FaultAt(f, 2);
    FaultAt(f, 3);
    FaultAt(f, 4);
    FaultAt(f, 5);
    FaultsEnd(f);
  }

  /** What stops a pair before any contract is looked at. */
  function AdmissionFaults(r: Registry, q: Query, s: Subject): seq<Fault>
    requires q.source in s.source.endpoints && q.target in s.target.endpoints
  {
    [Fault(q.source == q.target, Invalid)]
    + (PairFaults(q, s.source, s.target) + RuleFaults(Meaning(r.policies, s), Paths(r.paths, q.source, q.target)))
  }

  predicate Faulty(faults: seq<Fault>) { forall i | 0 <= i < |faults| :: faults[i].outcome != Ok }

  lemma OneAndTwo(first: Fault, pair: seq<Fault>, rules: seq<Fault>)
    requires !first.found && Faulty(pair)
    ensures FirstFault([first] + (pair + rules)) == if FirstFault(pair) != Ok then FirstFault(pair)
            else FirstFault(rules)
  {
    assert ([first] + (pair + rules))[1..] == pair + rules;
    FaultsAppend(pair, rules);
  }

  lemma FaultyAppend(a: seq<Fault>, b: seq<Fault>)
    requires Faulty(a) && Faulty(b)
    ensures Faulty(a + b)
  {
  }

  lemma PairIsFaulty(q: Query, s: Cluster, t: Cluster)
    requires q.source in s.endpoints && q.target in t.endpoints
    ensures Faulty(PairFaults(q, s, t))
  {
    var a, b := EndpointFaults(s.endpoints[q.source]), EndpointFaults(t.endpoints[q.target]);
    var c := GenerationFaults(q, s, t);
    FaultyAppend(b, c);
    FaultyAppend(a, b + c);
    FaultyAppend(ClusterFaults(t), a + (b + c));
    FaultyAppend(ClusterFaults(s), ClusterFaults(t) + (a + (b + c)));
  }

  lemma AdmitsInOrder(r: Registry, q: Query, s: Subject, pair: Outcome, rules: Outcome)
    requires q.source in s.source.endpoints && q.target in s.target.endpoints
    requires s == Subject(s.source, s.target, q.source, q.target) && CheckPair(q, s.source, s.target) == pair
    requires var m, p := Meaning(r.policies, s), Paths(r.paths, q.source, q.target);
             rules == if m != Allowed then PolicyOutcome(m) else if p.Blocked? then p.outcome else Ok
    ensures AdmitPair(r, q, s.source, s.target) == if pair != Ok then pair else rules
  {
  }

  lemma SubjectVerdict(r: Registry, q: Query, s: Subject)
    requires q.source in s.source.endpoints && q.target in s.target.endpoints && q.source != q.target
    requires s == Subject(s.source, s.target, q.source, q.target)
    ensures AdmitPair(r, q, s.source, s.target) == FirstFault(AdmissionFaults(r, q, s))
  {
    var pair := PairFaults(q, s.source, s.target);
    var rules := RulesAgainst(r, q, s);
    PairVerdict(q, s.source, s.target);
    PairIsFaulty(q, s.source, s.target);
    OneAndTwo(Fault(q.source == q.target, Invalid), pair, rules);
    AdmitsInOrder(r, q, s, FirstFault(pair), FirstFault(rules));
  }

  lemma RulesAgainst(r: Registry, q: Query, s: Subject) returns (rules: seq<Fault>)
    ensures var m, p := Meaning(r.policies, s), Paths(r.paths, q.source, q.target);
            && rules == RuleFaults(m, p)
            && FirstFault(rules) == if m != Allowed then PolicyOutcome(m) else if p.Blocked? then p.outcome else Ok
  {
    var m, p := Meaning(r.policies, s), Paths(r.paths, q.source, q.target);
    rules := RuleFaults(m, p);
    PathVerdict(r.paths, q.source, q.target);
    RuleVerdict(m, p);
  }

  /** An endpoint without an owner is not found; otherwise the verdict is the first fault of the pair, of the rules
      about it or of the paths between its endpoints. */
  lemma AdmissionVerdict(r: Registry, q: Query)
    ensures Admission(r, q)
         == if Owner(r, q.source).None? || Owner(r, q.target).None? then NotFound
            else FirstFault(AdmissionFaults(r, q, SubjectOf(r, q)))
  {
    if Owner(r, q.source).Some? && Owner(r, q.target).Some? {
      if q.source != q.target {
        SubjectVerdict(r, q, SubjectOf(r, q));
      } else {
        FaultAt(AdmissionFaults(r, q, SubjectOf(r, q)), 0);
        FaultsEnd(AdmissionFaults(r, q, SubjectOf(r, q)));
      }
    }
  }

  // ---- consents and grants ----

  /** What stands against the consent of one side. */
  function ConsentFaults(r: Registry, c: Contract, side: Side): seq<Fault>
    requires c.consents.At(side).Some?
  {
    var k, p := c.consents.At(side).value, c.parties.At(side);
    var known := p.cluster in r.clusters;
    [Fault(k.termsDigest != c.termsDigest, Conflicting), Fault(!known, Unknown),
     Fault(k.cluster != p.cluster || k.endpoint != p.endpoint, Conflicting),
     Fault(known && k.incarnation != r.clusters[p.cluster].incarnation, Stale),
     Fault(known && k.generation != r.clusters[p.cluster].generation, Stale),
     Fault(known && k.policyGeneration != r.clusters[p.cluster].policyGeneration, Stale)]
  }

  lemma ConsentVerdict(r: Registry, c: Contract, side: Side)
    requires c.BothConsented()
    ensures CheckConsent(r, c, side) == FirstFault(ConsentFaults(r, c, side))
  {
    var f := ConsentFaults(r, c, side);
    FaultAt(f, 0);
    FaultAt(f, 1);
    FaultAt(f, 2);
    FaultAt(f, 3);
    FaultAt(f, 4);
    FaultAt(f, 5);
    FaultsEnd(f);
  }

  predicate AcceptedSide(k: Option<Consent>) { k.Some? && k.value.decision == ConsentAccepted }

  function ContractFaults(c: Contract): seq<Fault> {
    [Fault(c.state == ContractRefused, Refused), Fault(c.state in {ContractWithdrawn, ContractFenced}, Fenced),
     Fault(c.state == ContractExpired, Expired),
     Fault(!AcceptedSide(c.consents.first) || !AcceptedSide(c.consents.second), Incomplete)]
  }

  lemma StateVerdict(c: Contract)
    ensures FirstFault(ContractFaults(c)) == Ok <==>
              c.BothConsented() && c.state !in {ContractRefused, ContractWithdrawn, ContractFenced, ContractExpired}
    ensures forall r :: FirstFault(ContractFaults(c)) != Ok ==> CheckConsents(r, c) == FirstFault(ContractFaults(c))
  {
    var f := ContractFaults(c);
    FaultAt(f, 0);
    FaultAt(f, 1);
    FaultAt(f, 2);
    FaultAt(f, 3);
    FaultsEnd(f);
  }

  /** A contract is judged by its state, then by its consents, the first side before the second. */
  lemma ContractVerdict(r: Registry, c: Contract)
    ensures FirstFault(ContractFaults(c)) == Ok ==> c.BothConsented()
    ensures CheckConsents(r, c)
         == if FirstFault(ContractFaults(c)) != Ok then FirstFault(ContractFaults(c))
            else FirstFault(ConsentFaults(r, c, First) + ConsentFaults(r, c, Second))
  {
    StateVerdict(c);
    if c.BothConsented() {
      FaultsAppend(ConsentFaults(r, c, First), ConsentFaults(r, c, Second));
      ConsentVerdict(r, c, First);
      ConsentVerdict(r, c, Second);
    }
  }

  /** What stands against the binding of one side. */
  function BindingFaults(r: Registry, c: Contract, g: Grant, side: Side): seq<Fault> {
    var b, name := g.bindings.At(side), c.parties.At(side).cluster;
    var known := name in r.clusters;
    [Fault(!known, Unknown), Fault(known && b.incarnation != r.clusters[name].incarnation, Fenced),
     Fault(known && b.generation != r.clusters[name].generation, Stale),
     Fault(known && b.policy != r.clusters[name].policyGeneration, Stale)]
  }

  lemma BindingVerdict(r: Registry, c: Contract, g: Grant, side: Side)
    ensures CheckBinding(r, c, g, side) == FirstFault(BindingFaults(r, c, g, side))
  {
    var f := BindingFaults(r, c, g, side);
    FaultAt(f, 0);
    FaultAt(f, 1);
    FaultAt(f, 2);
    FaultAt(f, 3);
    FaultsEnd(f);
  }

  /** What stands against a grant by itself, before its bindings are looked at. */
  function StandingFaults(c: Contract, g: Grant, v: View): seq<Fault> {
    [Fault(g.state in {Preparing, Prepared}, Incomplete), Fault(g.state == GrantIndeterminate, Indeterminate),
     Fault(g.state in {Aborted, GrantFenced, GrantWithdrawn}, Fenced), Fault(g.state == GrantExpired, Expired),
     Fault(!(g.acknowledged.first && g.acknowledged.second), Incomplete),
     Fault(g.term != v.term || g.coordinator != v.incarnation, Fenced),
     Fault(g.termsDigest != c.termsDigest, Conflicting)]
  }

  function UseFaults(g: Grant, q: Query, v: View): seq<Fault> {
    [Fault(v.now > g.validUntil, Expired), Fault(q.requestedCapacity > g.capacity, CapacityExceeded)]
  }

  /** A grant is judged by its standing, its bindings, its lease and its capacity. */
  function GrantFaults(r: Registry, c: Contract, g: Grant, q: Query, v: View): seq<Fault> {
    StandingFaults(c, g, v)
    + (BindingFaults(r, c, g, First) + (BindingFaults(r, c, g, Second) + UseFaults(g, q, v)))
  }

  lemma UseVerdict(g: Grant, q: Query, v: View)
    ensures FirstFault(UseFaults(g, q, v))
         == if v.now > g.validUntil then Expired else if q.requestedCapacity > g.capacity then CapacityExceeded else Ok
  {
    var f := UseFaults(g, q, v);
    FaultAt(f, 0);
    FaultAt(f, 1);
    FaultsEnd(f);
  }

  lemma StandingVerdict(c: Contract, g: Grant, v: View)
    ensures FirstFault(StandingFaults(c, g, v))
         == match g.state
            case Preparing => Incomplete
            case Prepared => Incomplete
            case GrantIndeterminate => Indeterminate
            case Aborted => Fenced
            case GrantFenced => Fenced
            case GrantWithdrawn => Fenced
            case GrantExpired => Expired
            case _ =>
              if !g.BothAcknowledged() then Incomplete
              else if g.term != v.term || g.coordinator != v.incarnation then Fenced
              else if g.termsDigest != c.termsDigest then Conflicting
              else Ok
  {
    var f := StandingFaults(c, g, v);
    FaultAt(f, 0);
    FaultAt(f, 1);
    FaultAt(f, 2);
    FaultAt(f, 3);
    FaultAt(f, 4);
    FaultAt(f, 5);
    FaultAt(f, 6);
    FaultsEnd(f);
  }

  lemma GrantVerdict(r: Registry, c: Contract, g: Grant, q: Query, v: View)
    ensures CheckSelected(r, c, g, q, v) == FirstFault(GrantFaults(r, c, g, q, v))
  {
    var a, b, d := BindingFaults(r, c, g, First), BindingFaults(r, c, g, Second), UseFaults(g, q, v);
    FaultsAppend(StandingFaults(c, g, v), a + (b + d));
    FaultsAppend(a, b + d);
    FaultsAppend(b, d);
    StandingVerdict(c, g, v);
    BindingVerdict(r, c, g, First);
    BindingVerdict(r, c, g, Second);
    UseVerdict(g, q, v);
  }

  // ---- which records are looked at ----

  /** A contract is looked at exactly when it is between the two endpoints, in either order. */
  lemma CandidateExactly(r: Registry, q: Query, c: Uuid)
    requires q.source != q.target
    ensures Candidate(r, q, c) <==>
              c in r.contracts
              && {r.contracts[c].parties.first.endpoint, r.contracts[c].parties.second.endpoint} == {q.source, q.target}
  {
    if c in r.contracts {
      var a, b := r.contracts[c].parties.first.endpoint, r.contracts[c].parties.second.endpoint;
      if {a, b} == {q.source, q.target} {
        assert a in {q.source, q.target} && b in {q.source, q.target};
        assert q.source in {a, b} && q.target in {a, b};
      }
    }
  }

  /** The grant that is judged was issued last; of several issued at once it is the one with the greatest
      identity. */
  lemma LatestIsLast(grants: map<Uuid, Grant>, contract: Uuid, h: Uuid)
    requires HasGrant(grants, contract) && h in grants && grants[h].contract == contract
    ensures var g := Latest(grants, contract);
            && grants[g].contract == contract && grants[h].issuedAt <= grants[g].issuedAt
            && (grants[h].issuedAt == grants[g].issuedAt ==> h <= g)
  {
  }

  /** The contract that is tried first was updated last; of several updated at once it is the one with the least
      identity. */
  lemma FirstWasUpdatedLast(r: Registry, cs: set<Uuid>, c: Uuid, d: Uuid)
    requires FirstOf(r, cs, c) && d in cs
    ensures r.contracts[d].updatedAt <= r.contracts[c].updatedAt
    ensures r.contracts[d].updatedAt == r.contracts[c].updatedAt ==> c <= d
  {
  }

  /** Byte by byte, a prefix before what continues it. */
  predicate Lexicographic(a: Name, b: Name, k: nat) {
    && k <= |a| && k <= |b| && a[..k] == b[..k]
    && ((k == |a| && k < |b|) || (k < |a| && k < |b| && a[k] < b[k]))
  }

  lemma {:induction false} BeforeIsLexicographic(a: Name, b: Name) returns (k: nat)
    requires Before(a, b)
    ensures Lexicographic(a, b, k)
    decreases |a|
  {
    k := 0;
    if a != [] && a[0] == b[0] {
      var j := BeforeIsLexicographic(a[1..], b[1..]);
      k := j + 1;
      assert a[..k] == [a[0]] + a[1..][..j] && b[..k] == [b[0]] + b[1..][..j];
    }
  }

  /** An endpoint that several clusters declare belongs to the first of them in byte order. */
  lemma OwnerIsFirst(r: Registry, e: Name, d: Name) returns (k: nat)
    requires d in r.clusters && e in r.clusters[d].endpoints
    ensures Owner(r, e).Some? && (d == Owner(r, e).value || Lexicographic(Owner(r, e).value, d, k))
  {
    var owners := set c | c in r.clusters && e in r.clusters[c].endpoints;
    assert d in owners;
    k := 0;
    if d != Owner(r, e).value { k := BeforeIsLexicographic(FirstName(owners), d); }
  }
}
