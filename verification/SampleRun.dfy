/** One run of the coordinator's handlers, written out from an empty registry: two agents register and
    report, a path and the rules of both domains are entered, a contract is proposed, both agents consent and
    a grant is issued. */
module SampleRun {
  import opened Model
  import opened Policy
  import opened Engine
  import opened Planning
  import opened Coordination
  import opened Effects

  const CONFIG := Config(true, 100, 50)
  const START := Coord(EMPTY_REGISTRY, map[], map[], 1, 1, CONFIG)

  const HELLO_A := Hello([1], [3], 7, 1, 1, 0)
  const HELLO_B := Hello([2], [4], 8, 1, 1, 0)
  const SESSION_A := Session([1], 7, 1, 1, 11, 0)
  const SESSION_B := Session([2], 8, 1, 1, 12, 0)

  const ENDPOINT_A := Endpoint([5], [1], 10, 0, 1, EndpointActive, true, false, EndpointNotes([], NO_PROVENANCE))
  const ENDPOINT_B := Endpoint([6], [2], 10, 0, 1, EndpointActive, true, false, EndpointNotes([], NO_PROVENANCE))
  const NOTES := ClusterNotes(0, None, 0, NO_PROVENANCE, 0)
  const REPORT_A := Cluster([1], [3], 7, 1, 1, ClusterActive, false, map[[5] := ENDPOINT_A], 0, false, NOTES)
  const REPORT_B := Cluster([2], [4], 8, 1, 1, ClusterActive, false, map[[6] := ENDPOINT_B], 0, false, NOTES)

  const GREETED_A :=
    START.(reg := EMPTY_REGISTRY.(clusters := map[[1] := Registered(HELLO_A)]), sessions := map[1 := SESSION_A])
  const GREETED :=
    START.(reg := EMPTY_REGISTRY.(clusters := map[[1] := Registered(HELLO_A), [2] := Registered(HELLO_B)]),
           sessions := map[1 := SESSION_A, 2 := SESSION_B])
  const REPORTED_A := GREETED.(reg := GREETED.reg.(clusters := map[[1] := REPORT_A, [2] := Registered(HELLO_B)]))
  const REPORTED := GREETED.(reg := GREETED.reg.(clusters := map[[1] := REPORT_A, [2] := REPORT_B]))

  const PATHS: map<Name, Path> := map[[9] := Path([9], [5], [6], [[7]], 10, PathUp, 0, NO_PROVENANCE, false)]
  const RULE_A := PolicyRule([1], [3], [], [], [], [], 1, true, false, 0, 0, NO_PROVENANCE)
  const RULE_B := PolicyRule([2], [4], [], [], [], [], 1, true, false, 0, 0, NO_PROVENANCE)
  const RULES: map<Name, PolicyRule> := map[[1] := RULE_A, [2] := RULE_B]
  const ROUTED := EditTopology(REPORTED, map[], PATHS, RULES)

  lemma Registers()
    ensures OnHello(START, 1, HELLO_A, 11, [], 0) == GREETED_A
    ensures OnHello(GREETED_A, 2, HELLO_B, 12, [], 0) == GREETED
  {
    assert |GREETED_A.reg.clusters| == 1;
  }

  lemma StoresReport(r: Registry, c: Cluster)
    requires c == REPORT_A || c == REPORT_B
    requires c.id in r.clusters
    ensures PutCluster(r, c) == Success(WithCluster(r, c.id, c))
  {
  }

  lemma ReportsFirst()
    ensures OnReport(GREETED, 1, 11, REPORT_A, [], 0) == REPORTED_A
  {
    TwoNames();
    StoresReport(GREETED.reg, REPORT_A);
    assert GREETED.reg.clusters[HELLO_A.cluster := REPORT_A] == REPORTED_A.reg.clusters;
  }

  lemma ReportsSecond()
    ensures OnReport(REPORTED_A, 2, 12, REPORT_B, [], 0) == REPORTED
  {
    TwoNames();
    StoresReport(REPORTED_A.reg, REPORT_B);
    assert REPORTED_A.reg.clusters[HELLO_B.cluster := REPORT_B] == REPORTED.reg.clusters;
  }

  lemma TwoNames()
    ensures HELLO_A.cluster != HELLO_B.cluster
  {
    assert HELLO_A.cluster[0] != HELLO_B.cluster[0];
  }

  const PROPOSAL := Proposal(Two([1], [2]), Two([5], [6]), 10, 10)
  const TERMS :=
    Terms(Two(Party([1], [5], [3]), Party([2], [6], [4])), 10, 10, Two(Binding(7, 1, 1), Binding(8, 1, 1)), 0)

  function AfterProposal(digest: Terms -> Digest): Coord {
    ROUTED.(reg := ROUTED.reg.(contracts := map[9 := ContractOf(9, TERMS, digest(TERMS), 0)]))
  }

  lemma ProposesContract(digest: Terms -> Digest)
    ensures Propose(ROUTED, PROPOSAL, 9, digest, 0) == AfterProposal(digest)
  {
    assert ProposedTerms(ROUTED, PROPOSAL, 0) == TERMS;
  }

  function Notice(digest: Terms -> Digest, endpoint: Name, incarnation: Uuid): ConsentNotice {
    ConsentNotice(9, endpoint, digest(TERMS), incarnation, 1, 1, 1, ConsentAccepted)
  }

  function AfterFirst(digest: Terms -> Digest): Contract {
    Record(ContractOf(9, TERMS, digest(TERMS), 0), First, ConsentOf([1], Notice(digest, [5], 7), 11, 0), 0)
  }

  function AfterBoth(digest: Terms -> Digest): Contract {
    Record(AfterFirst(digest), Second, ConsentOf([2], Notice(digest, [6], 8), 12, 0), 0)
  }

  function Holding(c: Contract): Coord {
    ROUTED.(reg := ROUTED.reg.(contracts := map[9 := c]))
  }

  lemma ConsentsFirst(digest: Terms -> Digest)
    ensures OnConsent(AfterProposal(digest), 1, 11, Notice(digest, [5], 7), 0) == Holding(AfterFirst(digest))
  {
  }

  lemma ConsentsSecond(digest: Terms -> Digest)
    ensures OnConsent(Holding(AfterFirst(digest)), 2, 12, Notice(digest, [6], 8), 0) == Holding(AfterBoth(digest))
    ensures AfterBoth(digest).state == Consented
  {
  }

  lemma OpensFlow(digest: Terms -> Digest, amount: nat)
    requires 0 < amount <= 10
    ensures var s := Holding(AfterBoth(digest));
            var t := Issue(s, 9, amount, 21, 22, 0);
            && t.reg == WithGrant(s.reg, 21, NewGrant(s, 21, 22, 9, amount, 0)) && t.sessions == s.sessions
            && FlowOpen(t, 21, 1, 11, 2, 12)
  {
    ConsentsSecond(digest);
    IssueOpensFlow(Holding(AfterBoth(digest)), 9, amount, 21, 22, 0, 1, 11, 2, 12);
  }

  /** The handlers one after the other, up to both consents. */
  function Agreed(digest: Terms -> Digest): Coord {
    var greeted := OnHello(OnHello(START, 1, HELLO_A, 11, [], 0), 2, HELLO_B, 12, [], 0);
    var reported := OnReport(OnReport(greeted, 1, 11, REPORT_A, [], 0), 2, 12, REPORT_B, [], 0);
    var routed := EditTopology(reported, map[], PATHS, RULES);
    var proposed := Propose(routed, PROPOSAL, 9, digest, 0);
    OnConsent(OnConsent(proposed, 1, 11, Notice(digest, [5], 7), 0), 2, 12, Notice(digest, [6], 8), 0)
  }

  lemma AgreedIs(digest: Terms -> Digest)
    ensures Agreed(digest) == Holding(AfterBoth(digest))
  {
    Registers();
    ReportsFirst();
    ReportsSecond();
    ProposesContract(digest);
    ConsentsFirst(digest);
    ConsentsSecond(digest);
  }

  ghost function Issued(digest: Terms -> Digest, amount: nat): Coord {
    Issue(Agreed(digest), 9, amount, 21, 22, 0)
  }

  /** The grant the run issues. */
  function GrantIssued(digest: Terms -> Digest, amount: nat): Grant {
    Grant(21, 9, digest(TERMS), 1, 1, 22, TERMS.bindings, amount, 0, 10, Preparing, Two(false, false),
          GrantNotes(Two(0, 0), 0, [], 0, NO_PROVENANCE))
  }

  lemma IssuedParts(digest: Terms -> Digest, amount: nat)
    requires 0 < amount <= 10
    ensures var t := Issued(digest, amount);
            && FlowOpen(t, 21, 1, 11, 2, 12) && t.sessions == ROUTED.sessions
            && t.reg == Holding(AfterBoth(digest)).reg.(grants := map[21 := GrantIssued(digest, amount)])
  {
    AgreedIs(digest);
    OpensFlow(digest, amount);
  }

  lemma EndpointsHaveRoom(r: Registry, side: Side, amount: nat)
    requires r.clusters == ROUTED.reg.clusters && amount <= 10
    ensures CanReserve(r, TERMS.parties.At(side), amount)
  {
    TwoNames();
    assert HELLO_A.cluster in r.clusters && r.clusters[HELLO_A.cluster] == REPORT_A;
    assert HELLO_B.cluster in r.clusters && r.clusters[HELLO_B.cluster] == REPORT_B;
  }

  // ---- the pair is authorized once the grant is in use ----

  const QUERY := Query([5], [6], 1, false, None, None)
  const VIEW := View(1, 1, 0)

  /** The records once both agents have answered, the ledger aside. */
  function InUse(digest: Terms -> Digest, amount: nat): Registry {
    var g := GrantIssued(digest, amount).(state := Committed, acknowledged := Two(true, true));
    Holding(AfterBoth(digest)).reg.(grants := map[21 := g])
  }

  lemma Owners(r: Registry)
    requires r.clusters == ROUTED.reg.clusters
    ensures Owner(r, QUERY.source) == Some(HELLO_A.cluster) && Owner(r, QUERY.target) == Some(HELLO_B.cluster)
    ensures r.clusters[HELLO_A.cluster] == REPORT_A && r.clusters[HELLO_B.cluster] == REPORT_B
  {
    TwoNames();
    assert HELLO_A.cluster in r.clusters && r.clusters[HELLO_A.cluster] == REPORT_A;
    assert HELLO_B.cluster in r.clusters && r.clusters[HELLO_B.cluster] == REPORT_B;
    assert QUERY.source[0] != QUERY.target[0];
  }

  lemma RulesAllow()
    ensures Meaning(RULES, Subject(REPORT_A, REPORT_B, QUERY.source, QUERY.target)) == Allowed
  {
    var subject := Subject(REPORT_A, REPORT_B, QUERY.source, QUERY.target);
    TwoNames();
    assert RULE_A.id != RULE_B.id;
    assert RULE_A.id in RULES && RULES[RULE_A.id] == RULE_A && CurrentAllow(RULE_A, subject);
    assert RULE_B.id in RULES && RULES[RULE_B.id] == RULE_B && CurrentAllow(RULE_B, subject);
    assert forall id <- RULES :: RULES[id] == RULE_A || RULES[id] == RULE_B;
  }

  lemma PathIsUp()
    ensures Paths(PATHS, QUERY.source, QUERY.target) == Healthy
  {
    assert PATHS.Keys == {[9]};
  }

  lemma PairChecks()
    ensures CheckPair(QUERY, REPORT_A, REPORT_B) == Ok
  {
    assert REPORT_A.endpoints[QUERY.source] == ENDPOINT_A && REPORT_B.endpoints[QUERY.target] == ENDPOINT_B;
  }

  lemma PairAdmitted(r: Registry)
    requires r.clusters == ROUTED.reg.clusters && r.paths == PATHS && r.policies == RULES
    ensures Admitted(r, QUERY)
  {
    Owners(r);
    RulesAllow();
    PathIsUp();
    PairChecks();
    assert QUERY.source[0] != QUERY.target[0];
    assert AdmitPair(r, QUERY, REPORT_A, REPORT_B) == Ok;
  }

  lemma ConsentHolds(digest: Terms -> Digest, r: Registry, side: Side)
    requires r.clusters == ROUTED.reg.clusters && AfterBoth(digest).BothConsented()
    ensures CheckConsent(r, AfterBoth(digest), side) == Ok
  {
    Owners(r);
  }

  lemma ConsentsHold(digest: Terms -> Digest, r: Registry)
    requires r.clusters == ROUTED.reg.clusters
    ensures CheckConsents(r, AfterBoth(digest)) == Ok
  {
    ConsentsSecond(digest);
    assert AfterBoth(digest).BothConsented();
    ConsentHolds(digest, r, First);
    ConsentHolds(digest, r, Second);
  }

  lemma GrantHolds(digest: Terms -> Digest, amount: nat, r: Registry)
    requires 0 < amount <= 10 && r.clusters == ROUTED.reg.clusters
    ensures CheckSelected(r, AfterBoth(digest), InUse(digest, amount).grants[21], QUERY, VIEW) == Ok
  {
    Owners(r);
  }

  lemma AuthorizedBy(r: Registry, q: Query, v: View, c: Uuid, g: Uuid)
    requires Admitted(r, q) && Candidate(r, q, c) && CheckConsents(r, r.contracts[c]) == Ok && IsLatest(r.grants, c, g)
    requires CheckSelected(r, r.contracts[c], r.grants[g], q, v) == Ok
    ensures Authorizes(r, q, v, c, g)
  {
    LatestUnique(r.grants, c, g, Latest(r.grants, c));
  }

  /** The query about the two endpoints is authorized over the grant. */
  lemma InUseAuthorizes(digest: Terms -> Digest, amount: nat)
    requires 0 < amount <= 10
    ensures Authorizes(InUse(digest, amount), QUERY, VIEW, 9, 21)
  {
    var r := InUse(digest, amount);
    PairAdmitted(r);
    ConsentsHold(digest, r);
    GrantHolds(digest, amount, r);
    AuthorizedBy(r, QUERY, VIEW, 9, 21);
  }
}
