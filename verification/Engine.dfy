/** The decision engine (src/runtime/engine.cpp): is this endpoint pair authorized right now? */
module Engine {
  import opened Model
  import opened Names
  import opened Policy

  datatype Query = Query(
    source: Name, target: Name, requestedCapacity: nat, allowDegraded: bool,
    sourceGeneration: Option<nat>, targetGeneration: Option<nat>)

  /** The coordinator term and incarnation answering, and its clock. */
  datatype View = View(term: nat, incarnation: Uuid, now: Time)

  datatype Decision = Decision(outcome: Outcome, contract: Uuid, grant: Uuid)

  predicate IsAuthorized(o: Outcome) { o == Ok || o == DegradedAuthorized }

  // ---- the single checks ----

  function CheckCluster(c: Cluster): Outcome {
    match c.state
    case ClusterUnknown => Unknown
    case ClusterSuspended => Refused
    case ClusterDraining => Refused
    case ClusterRetired => Fenced
    case ClusterActive =>
      if c.generationConflict then Conflicting else if c.consentWithdrawn then Refused else Ok
  }

  function CheckEndpoint(e: Endpoint): Outcome {
    match e.state
    case EndpointUnknown => Unknown
    case EndpointSuspended => Refused
    case EndpointDraining => Refused
    case EndpointRetired => Fenced
    case EndpointActive => if e.interClusterAllowed then Ok else Refused
  }

  function CheckConsent(r: Registry, c: Contract, side: Side): Outcome
    requires c.BothConsented()
  {
    var consent := c.consents.At(side).value;
    var party := c.parties.At(side);
    if consent.termsDigest != c.termsDigest then Conflicting
    else if party.cluster !in r.clusters then Unknown
    else
      var cluster := r.clusters[party.cluster];
      if consent.cluster != party.cluster || consent.endpoint != party.endpoint then Conflicting
      else if consent.incarnation != cluster.incarnation then Stale
      else if consent.generation != cluster.generation then Stale
      else if consent.policyGeneration != cluster.policyGeneration then Stale
      else Ok
  }

  function CheckConsents(r: Registry, c: Contract): Outcome {
    match c.state
    case ContractRefused => Refused
    case ContractWithdrawn => Fenced
    case ContractFenced => Fenced
    case ContractExpired => Expired
    case _ =>
      if !c.BothConsented() then Incomplete
      else if CheckConsent(r, c, First) != Ok then CheckConsent(r, c, First)
      else CheckConsent(r, c, Second)
  }

  function CheckBinding(r: Registry, c: Contract, g: Grant, side: Side): Outcome {
    var party := c.parties.At(side);
    if party.cluster !in r.clusters then Unknown
    else
      var cluster := r.clusters[party.cluster];
      var bound := g.bindings.At(side);
      if bound.incarnation != cluster.incarnation then Fenced
      else if bound.generation != cluster.generation then Stale
      else if bound.policy != cluster.policyGeneration then Stale
      else Ok
  }

  /** `check_grant` on the grant it selected. */
  function CheckSelected(r: Registry, c: Contract, g: Grant, q: Query, v: View): Outcome {
    match g.state
    case Preparing => Incomplete
    case Prepared => Incomplete
    case GrantIndeterminate => Indeterminate
    case Aborted => Fenced
    case GrantFenced => Fenced
    case GrantWithdrawn => Fenced
    case GrantExpired => Expired
    case _ =>
      if !g.BothAcknowledged() then Incomplete
      else if g.term != v.term || g.coordinator != v.incarnation then Fenced
      else if g.termsDigest != c.termsDigest then Conflicting
      else if CheckBinding(r, c, g, First) != Ok then CheckBinding(r, c, g, First)
      else if CheckBinding(r, c, g, Second) != Ok then CheckBinding(r, c, g, Second)
      else if v.now > g.validUntil then Expired
      else if q.requestedCapacity > g.capacity then CapacityExceeded
      else Ok
  }

  // ---- selections ----

  /** The first cluster, in identity order, that declares the endpoint. */
  ghost function Owner(r: Registry, e: Name): (owner: Option<Name>)
    ensures owner.None? <==> forall c <- r.clusters :: e !in r.clusters[c].endpoints
    ensures owner.Some? ==> owner.value in r.clusters && e in r.clusters[owner.value].endpoints
  {
    var owners := set c | c in r.clusters && e in r.clusters[c].endpoints;
    assert forall c <- r.clusters :: e in r.clusters[c].endpoints <==> c in owners;
    if owners == {} then None else Some(FirstName(owners))
  }

  predicate Newer(grants: map<Uuid, Grant>, x: Uuid, y: Uuid)
    requires x in grants && y in grants
  {
    grants[y].issuedAt < grants[x].issuedAt || (grants[y].issuedAt == grants[x].issuedAt && y < x)
  }

  /** The grant `check_grant` judges: the most recently issued one, the greater identity on a tie. */
  predicate IsLatest(grants: map<Uuid, Grant>, contract: Uuid, g: Uuid) {
    && g in grants && grants[g].contract == contract
    && forall h <- grants :: grants[h].contract == contract ==> h == g || Newer(grants, g, h)
  }

  predicate HasGrant(grants: map<Uuid, Grant>, contract: Uuid) {
    exists g <- grants :: grants[g].contract == contract
  }

  predicate CoversPair(c: Contract, a: Name, b: Name) {
    || (c.parties.first.endpoint == a && c.parties.second.endpoint == b)
    || (c.parties.first.endpoint == b && c.parties.second.endpoint == a)
  }

  /** Candidate order: most recently updated first, then by identity. */
  predicate Precedes(contracts: map<Uuid, Contract>, x: Uuid, y: Uuid)
    requires x in contracts && y in contracts
  {
    || contracts[y].updatedAt < contracts[x].updatedAt
    || (contracts[x].updatedAt == contracts[y].updatedAt && x < y)
  }

  // ---- paths ----

  datatype PathVerdict = Healthy | OnlyDegraded | Blocked(outcome: Outcome)

  predicate Between(p: Path, a: Name, b: Name) {
    (p.a == a && p.b == b) || (p.a == b && p.b == a)
  }

  predicate Sees(paths: map<Name, Path>, among: set<Name>, a: Name, b: Name, state: PathState)
    requires among <= paths.Keys
  {
    exists p <- among :: Between(paths[p], a, b) && !paths[p].containsUnsupportedEdge && paths[p].state == state
  }

  predicate SeesState(paths: map<Name, Path>, a: Name, b: Name, state: PathState) {
    Sees(paths, paths.Keys, a, b, state)
  }

  predicate SeesUnsupported(paths: map<Name, Path>, a: Name, b: Name) {
    exists p <- paths :: Between(paths[p], a, b) && paths[p].containsUnsupportedEdge
  }

  function Paths(paths: map<Name, Path>, a: Name, b: Name): PathVerdict {
    if SeesState(paths, a, b, PathUp) then Healthy
    else if SeesState(paths, a, b, PathDegraded) then OnlyDegraded
    else if SeesState(paths, a, b, PathUnknown) then Blocked(Unknown)
    else if SeesUnsupported(paths, a, b) then Blocked(Unsupported)
    else Blocked(Partitioned)
  }

  // ---- the declarative meaning of a decision ----

  function PolicyOutcome(d: PolicyDecision): Outcome {
    match d
    case Allowed => Ok
    case RefusedExplicitly => Refused
    case MissingAllowRule => Unauthorized
    case StaleGeneration => Stale
  }

  predicate GenerationExpected(expected: Option<nat>, actual: nat) {
    expected.Some? ==> expected.value == actual
  }

  /** Everything decided before any contract is looked at. */
  ghost function Admission(r: Registry, q: Query): Outcome {
    var s, t := Owner(r, q.source), Owner(r, q.target);
    if s.None? || t.None? then NotFound
    else if q.source == q.target then Invalid
    else AdmitPair(r, q, r.clusters[s.value], r.clusters[t.value])
  }

  function AdmitPair(r: Registry, q: Query, s: Cluster, t: Cluster): Outcome
    requires q.source in s.endpoints && q.target in t.endpoints
  {
    if CheckPair(q, s, t) != Ok then CheckPair(q, s, t)
    else
      var policy := PolicyOutcome(Meaning(r.policies, Subject(s, t, q.source, q.target)));
      if policy != Ok then policy
      else
        match Paths(r.paths, q.source, q.target)
        case Blocked(o) => o
        case _ => Ok
  }

  function CheckPair(q: Query, s: Cluster, t: Cluster): Outcome
    requires q.source in s.endpoints && q.target in t.endpoints
  {
    if CheckCluster(s) != Ok then CheckCluster(s)
    else if CheckCluster(t) != Ok then CheckCluster(t)
    else if CheckEndpoint(s.endpoints[q.source]) != Ok then CheckEndpoint(s.endpoints[q.source])
    else if CheckEndpoint(t.endpoints[q.target]) != Ok then CheckEndpoint(t.endpoints[q.target])
    else if !GenerationExpected(q.sourceGeneration, s.generation) then Stale
    else if !GenerationExpected(q.targetGeneration, t.generation) then Stale
    else Ok
  }

  /** What a covering contract contributes: Ok exactly when its consents and its latest grant hold. */
  ghost function CandidateOutcome(r: Registry, q: Query, v: View, c: Uuid): Outcome
    requires c in r.contracts
  {
    if CheckConsents(r, r.contracts[c]) != Ok then CheckConsents(r, r.contracts[c])
    else if !HasGrant(r.grants, c) then Incomplete
    else CheckSelected(r, r.contracts[c], r.grants[Latest(r.grants, c)], q, v)
  }

  ghost function Latest(grants: map<Uuid, Grant>, contract: Uuid): (g: Uuid)
    requires HasGrant(grants, contract)
    ensures IsLatest(grants, contract, g)
  {
    assert exists g :: IsLatest(grants, contract, g) by { var g := LatestExists(grants, contract); }
    var g :| IsLatest(grants, contract, g);
    g
  }

  lemma LatestUnique(grants: map<Uuid, Grant>, contract: Uuid, g: Uuid, h: Uuid)
    requires IsLatest(grants, contract, g) && IsLatest(grants, contract, h)
    ensures g == h
  {
  }

  lemma LatestExists(grants: map<Uuid, Grant>, contract: Uuid) returns (g: Uuid)
    requires HasGrant(grants, contract)
    ensures IsLatest(grants, contract, g)
  {
    g :| g in grants && grants[g].contract == contract;
    var rest := grants.Keys - {g};
    while rest != {}
      invariant rest <= grants.Keys
      invariant g in grants && g !in rest && grants[g].contract == contract
      invariant forall h <- grants.Keys - rest :: grants[h].contract == contract ==> h == g || Newer(grants, g, h)
      decreases |rest|
    {
      var h :| h in rest;
      rest := rest - {h};
      if grants[h].contract == contract && Newer(grants, h, g) {
        g := h;
      }
    }
  }

  predicate Candidate(r: Registry, q: Query, c: Uuid) {
    c in r.contracts && CoversPair(r.contracts[c], q.source, q.target)
  }

  ghost predicate Passes(r: Registry, q: Query, v: View, c: Uuid) {
    Candidate(r, q, c) && CandidateOutcome(r, q, v, c) == Ok
  }

  /** A degraded path needs the caller, the policy of both domains and both endpoints to accept it. */
  ghost predicate DegradedAccepted(r: Registry, q: Query)
    requires Owner(r, q.source).Some? && Owner(r, q.target).Some?
  {
    var s := r.clusters[Owner(r, q.source).value];
    var t := r.clusters[Owner(r, q.target).value];
    && q.allowDegraded
    && DegradedPermitted(r.policies, Subject(s, t, q.source, q.target))
    && s.endpoints[q.source].permitsDegraded && t.endpoints[q.target].permitsDegraded
  }

  ghost predicate PathAccepted(r: Registry, q: Query)
    requires Owner(r, q.source).Some? && Owner(r, q.target).Some?
  {
    Paths(r.paths, q.source, q.target) == OnlyDegraded ==> DegradedAccepted(r, q)
  }

  /** The pair is authorized by contract `c` over grant `g`. */
  ghost predicate Authorizes(r: Registry, q: Query, v: View, c: Uuid, g: Uuid) {
    && Admitted(r, q)
    && Passes(r, q, v, c)
    && IsLatest(r.grants, c, g)
  }

  ghost predicate Admitted(r: Registry, q: Query) {
    Admission(r, q) == Ok && PathAccepted(r, q)
  }

  ghost predicate FirstOf(r: Registry, cs: set<Uuid>, c: Uuid) {
    && c in cs && cs <= r.contracts.Keys
    && forall d <- cs :: d == c || Precedes(r.contracts, c, d)
  }

  // ---- the engine ----

  method Resolve(r: Registry, e: Name) returns (owner: Option<Name>)
    ensures owner == Owner(r, e)
  {
    var todo := set c | c in r.clusters && e in r.clusters[c].endpoints;
    if todo == {} { return None; }
    ghost var owners := todo;
    var best :| best in todo;
    todo := todo - {best};
    while todo != {}
      invariant best in owners && best !in todo && todo <= owners
      invariant forall c <- owners - todo :: c == best || Before(best, c)
      decreases |todo|
    {
      var c :| c in todo;
      todo := todo - {c};
      BeforeTotal(c, best);
      if Before(c, best) {
        forall d | d in owners - todo ensures d == c || Before(c, d) {
          if d != c && d != best { BeforeTransitive(c, best, d); }
        }
        best := c;
      }
    }
    FirstUnique(owners, best);
    return Some(best);
  }

  /** The scan of `evaluate_paths`. */
  method EvaluatePaths(paths: map<Name, Path>, a: Name, b: Name) returns (verdict: PathVerdict)
    ensures verdict == Paths(paths, a, b)
  {
    var up, degraded, unknown, unsupported := false, false, false, false;
    var todo := paths.Keys;
    while todo != {}
      invariant todo <= paths.Keys
      invariant up <==> Sees(paths, paths.Keys - todo, a, b, PathUp)
      invariant degraded <==> Sees(paths, paths.Keys - todo, a, b, PathDegraded)
      invariant unknown <==> Sees(paths, paths.Keys - todo, a, b, PathUnknown)
      invariant unsupported <==>
                  exists p <- paths.Keys - todo :: Between(paths[p], a, b) && paths[p].containsUnsupportedEdge
      decreases |todo|
    {
      var id :| id in todo;
      todo := todo - {id};
      var path := paths[id];
      if Between(path, a, b) {
        if path.containsUnsupportedEdge {
          unsupported := true;
        } else if path.state == PathUp {
          up := true;
        } else if path.state == PathDegraded {
          degraded := true;
        } else if path.state == PathUnknown {
          unknown := true;
        }
      }
    }
    assert paths.Keys - todo == paths.Keys;
    if up { return Healthy; }
    if degraded { return OnlyDegraded; }
    if unknown { return Blocked(Unknown); }
    if unsupported { return Blocked(Unsupported); }
    return Blocked(Partitioned);
  }

  lemma FirstUnique(s: set<Name>, m: Name)
    requires m in s && forall x <- s :: x == m || Before(m, x)
    ensures FirstName(s) == m
  {
    var f := FirstName(s);
    if f != m {
      BeforeTransitive(f, m, f);
      BeforeIrreflexive(f);
    }
  }

  /** The selection loop of `check_grant`. */
  method SelectGrant(grants: map<Uuid, Grant>, contract: Uuid) returns (selected: Option<Uuid>)
    ensures selected.None? <==> !HasGrant(grants, contract)
    ensures selected.Some? ==> selected.value == Latest(grants, contract)
  {
    selected := None;
    var todo := grants.Keys;
    while todo != {}
      invariant todo <= grants.Keys
      invariant selected.None? ==> forall h <- grants.Keys - todo :: grants[h].contract != contract
      invariant selected.Some? ==>
                  && selected.value in grants.Keys - todo && grants[selected.value].contract == contract
                  && forall h <- grants.Keys - todo ::
                       grants[h].contract == contract ==> h == selected.value || Newer(grants, selected.value, h)
      decreases |todo|
    {
      var h :| h in todo;
      todo := todo - {h};
      if grants[h].contract == contract && (selected.None? || Newer(grants, h, selected.value)) {
        selected := Some(h);
      }
    }
    if selected.Some? {
      LatestUnique(grants, contract, selected.value, Latest(grants, contract));
    }
  }

  /** The next candidate in candidate order. */
  method NextCandidate(r: Registry, todo: set<Uuid>) returns (c: Uuid)
    requires todo != {} && todo <= r.contracts.Keys
    ensures FirstOf(r, todo, c)
  {
    c :| c in todo;
    var rest := todo - {c};
    while rest != {}
      invariant rest <= todo && c in todo - rest
      invariant forall d <- todo - rest :: d == c || Precedes(r.contracts, c, d)
      decreases |rest|
    {
      var d :| d in rest;
      forall e | e in todo - rest && Precedes(r.contracts, d, c) ensures Precedes(r.contracts, d, e) {}
      rest := rest - {d};
      if Precedes(r.contracts, d, c) {
        c := d;
      }
    }
  }

  /** One candidate: its consents, then its latest grant. */
  method Try(r: Registry, q: Query, v: View, c: Uuid) returns (d: Decision)
    requires c in r.contracts
    ensures d.contract == c && d.outcome == CandidateOutcome(r, q, v, c)
    ensures d.outcome == Ok ==> IsLatest(r.grants, c, d.grant)
  {
    var consents := CheckConsents(r, r.contracts[c]);
    if consents != Ok { return Decision(consents, c, 0); }
    var selected := SelectGrant(r.grants, c);
    if selected.None? { return Decision(Incomplete, c, 0); }
    d := Decision(CheckSelected(r, r.contracts[c], r.grants[selected.value], q, v), c, selected.value);
  }

  /** The candidate loop: the first candidate that passes, otherwise the verdict of the very first. */
  method TryCandidates(r: Registry, q: Query, v: View, candidates: set<Uuid>) returns (d: Decision)
    requires candidates != {} && candidates <= r.contracts.Keys
    ensures d.contract in candidates && d.outcome == CandidateOutcome(r, q, v, d.contract)
    ensures d.outcome == Ok ==> IsLatest(r.grants, d.contract, d.grant)
    ensures d.outcome == Ok ==>
              forall c <- candidates ::
                c == d.contract || Precedes(r.contracts, d.contract, c) || CandidateOutcome(r, q, v, c) != Ok
    ensures d.outcome != Ok ==>
              FirstOf(r, candidates, d.contract) && forall c <- candidates :: CandidateOutcome(r, q, v, c) != Ok
  {
    var c := NextCandidate(r, candidates);
    var failure := Try(r, q, v, c);
    if failure.outcome == Ok { return failure; }
    var todo := candidates - {c};
    while todo != {}
      invariant todo <= candidates
      invariant forall c <- candidates - todo :: CandidateOutcome(r, q, v, c) != Ok
      decreases |todo|
    {
      c := NextCandidate(r, todo);
      d := Try(r, q, v, c);
      if d.outcome == Ok { return d; }
      todo := todo - {c};
    }
    d := failure;
  }

  /** What `decide` answers once the pair is admitted: `healthy` when an undegraded path exists,
      `accepted` when the path may be used. */
  ghost predicate AdmittedVerdict(r: Registry, q: Query, v: View, healthy: bool, accepted: bool, d: Decision) {
    if forall c :: !Candidate(r, q, c) then
      d.outcome == Unauthorized
    else if forall c :: !Passes(r, q, v, c) then
      // the verdict of the most recently updated covering contract
      && FirstOf(r, (set c | c in r.contracts && Candidate(r, q, c)), d.contract)
      && d.outcome == CandidateOutcome(r, q, v, d.contract)
    else if !accepted then
      d.outcome == Unauthorized
    else
      // the most recently updated contract that passes, over its latest grant
      && Passes(r, q, v, d.contract) && IsLatest(r.grants, d.contract, d.grant)
      && (forall c :: Passes(r, q, v, c) ==> c == d.contract || Precedes(r.contracts, d.contract, c))
      && d.outcome == if healthy then Ok else DegradedAuthorized
  }

  ghost predicate Verdict(r: Registry, q: Query, v: View, d: Decision) {
    if Admission(r, q) != Ok then d.outcome == Admission(r, q)
    else AdmittedVerdict(r, q, v, Paths(r.paths, q.source, q.target) == Healthy, PathAccepted(r, q), d)
  }

  lemma AdmissionNeverDegraded(r: Registry, q: Query)
    ensures Admission(r, q) != DegradedAuthorized
  {
  }

  lemma CandidateNeverDegraded(r: Registry, q: Query, v: View, c: Uuid)
    requires c in r.contracts
    ensures CandidateOutcome(r, q, v, c) != DegradedAuthorized
  {
  }

  lemma AdmittedMeaning(r: Registry, q: Query, v: View, healthy: bool, accepted: bool, d: Decision)
    requires AdmittedVerdict(r, q, v, healthy, accepted, d)
    ensures IsAuthorized(d.outcome) <==> accepted && exists c :: Passes(r, q, v, c)
    ensures IsAuthorized(d.outcome) ==> Passes(r, q, v, d.contract) && IsLatest(r.grants, d.contract, d.grant)
  {
    if d.contract in r.contracts { CandidateNeverDegraded(r, q, v, d.contract); }
    if forall c :: !Candidate(r, q, c) {
    } else if forall c :: !Passes(r, q, v, c) {
      assert Candidate(r, q, d.contract) && !Passes(r, q, v, d.contract);
    }
  }

  lemma VerdictAuthorized(r: Registry, q: Query, v: View, d: Decision)
    requires Verdict(r, q, v, d)
    ensures IsAuthorized(d.outcome) <==> Admitted(r, q) && exists c :: Passes(r, q, v, c)
    ensures IsAuthorized(d.outcome) ==> Passes(r, q, v, d.contract) && IsLatest(r.grants, d.contract, d.grant)
  {
    AdmissionNeverDegraded(r, q);
    if Admission(r, q) == Ok {
      AdmittedMeaning(r, q, v, Paths(r.paths, q.source, q.target) == Healthy, PathAccepted(r, q), d);
    }
  }

  /** The verdict is authorized exactly when some contract and grant authorize the pair. */
  lemma VerdictMeaning(r: Registry, q: Query, v: View, d: Decision)
    requires Verdict(r, q, v, d)
    ensures IsAuthorized(d.outcome) <==> exists c, g :: Authorizes(r, q, v, c, g)
    ensures IsAuthorized(d.outcome) ==> Authorizes(r, q, v, d.contract, d.grant)
  {
    VerdictAuthorized(r, q, v, d);
    if IsAuthorized(d.outcome) {
      assert Authorizes(r, q, v, d.contract, d.grant);
    }
  }

  /** The part of `decide` that follows the checks on the pair. */
  method DecideAdmitted(r: Registry, q: Query, v: View, degraded: bool, permitted: bool) returns (d: Decision)
    ensures AdmittedVerdict(r, q, v, !degraded, degraded ==> permitted, d)
  {
    var candidates := set c | c in r.contracts && Candidate(r, q, c);
    assert forall c :: Candidate(r, q, c) <==> c in candidates;
    if candidates == {} { return Decision(Unauthorized, 0, 0); }
    d := TryCandidates(r, q, v, candidates);
    assert Candidate(r, q, d.contract);
    if d.outcome == Ok {
      assert Passes(r, q, v, d.contract);
      if degraded {
        d := d.(outcome := if permitted then DegradedAuthorized else Unauthorized);
      }
    }
  }

  /** `decide`: the checks on the pair, the candidates, and the permission to use a degraded path. */
  method Decide(r: Registry, q: Query, v: View) returns (d: Decision)
    ensures Verdict(r, q, v, d)
    ensures IsAuthorized(d.outcome) <==> exists c, g :: Authorizes(r, q, v, c, g)
    ensures IsAuthorized(d.outcome) ==> Authorizes(r, q, v, d.contract, d.grant)
  {
    var source := Resolve(r, q.source);
    var target := Resolve(r, q.target);
    if source.None? || target.None? {
      d := Decision(NotFound, 0, 0);
    } else if q.source == q.target {
      d := Decision(Invalid, 0, 0);
    } else {
      d := DecidePair(r, q, v, r.clusters[source.value], r.clusters[target.value]);
    }
    VerdictMeaning(r, q, v, d);
  }

  method DecidePair(r: Registry, q: Query, v: View, s: Cluster, t: Cluster) returns (d: Decision)
    requires Owner(r, q.source).Some? && s == r.clusters[Owner(r, q.source).value]
    requires Owner(r, q.target).Some? && t == r.clusters[Owner(r, q.target).value]
    requires q.source != q.target
    ensures Verdict(r, q, v, d)
  {
    var pair := CheckPair(q, s, t);
    if pair != Ok { return Decision(pair, 0, 0); }
    var policy := EvaluatePolicy(r.policies, Subject(s, t, q.source, q.target));
    if policy.decision != Allowed { return Decision(PolicyOutcome(policy.decision), 0, 0); }
    var paths := EvaluatePaths(r.paths, q.source, q.target);
    if paths.Blocked? { return Decision(paths.outcome, 0, 0); }
    var permitted := q.allowDegraded && policy.allowDegraded && s.endpoints[q.source].permitsDegraded
                     && t.endpoints[q.target].permitsDegraded;
    d := DecideAdmitted(r, q, v, paths == OnlyDegraded, permitted);
  }
}
