/** A cluster report replaces the counters the coordinator keeps (src/runtime/coordinator.cpp): an agent that
    repeats its own record gives its endpoints away a second time. */
module ReportedCounters {
  import opened Model
  import opened Sums
  import opened Engine
  import opened FenceEffects
  import opened Planning
  import opened Coordination
  import opened Effects
  import opened DecisionFrame
  import opened SampleRun
  import opened FencedReturn
  import opened Ledger
  import opened LedgerRuns

  // ---- any record sent a second time ----

  /** The session of the agent whose record this is. */
  predicate Sends(s: Coord, conn: nat, token: Uuid, c: Cluster) {
    && Authentic(s, conn, token)
    && s.sessions[conn]
       == s.sessions[conn].(cluster := c.id, generation := c.generation, policyGeneration := c.policyGeneration)
  }

  /** A record that differs from the stored one in its counters alone is accepted, and its counters take the
      place of the coordinator's. */
  lemma RepeatedReport(s: Coord, conn: nat, token: Uuid, c: Cluster, now: Time)
    requires Sends(s, conn, token, c) && c.id in s.reg.clusters && SameButCounters(c, s.reg.clusters[c.id])
    requires !c.generationConflict && PutCluster(s.reg, c).Success?
    ensures OnReport(s, conn, token, c, [], now) == s.(reg := WithCluster(s.reg, c.id, c))
  {
    assert s.sessions[conn := s.sessions[conn]] == s.sessions;
  }

  // ---- a second grant after the reports ----

  /** A second grant of the same amount may be issued over the contract. */
  predicate MayIssue(t: Coord, c: Uuid, amount: nat, h: Uuid, one: nat, oneToken: Uuid, two: nat, twoToken: Uuid) {
    && c in t.reg.contracts && Open(t.reg.contracts[c]) && 0 < amount <= t.reg.contracts[c].capacity
    && amount <= MAX_CAPACITY && c != 0 && h != 0 && h !in t.reg.grants && |t.reg.grants| < MAX_GRANTS
    && t.reg.contracts[c].parties.first.cluster != t.reg.contracts[c].parties.second.cluster
    && Present(t, t.reg.contracts[c], First, one, oneToken) && Present(t, t.reg.contracts[c], Second, two, twoToken)
  }

  predicate BothUsable(r: Registry, g: Uuid, h: Uuid, amount: nat) {
    && g != h && g in r.grants && h in r.grants && r.grants[g].Usable() && r.grants[h].Usable()
    && r.grants[g].capacity == amount && r.grants[h].capacity == amount && r.grants[g].contract == r.grants[h].contract
  }

  lemma SecondIsServed(
      t: Coord, c: Uuid, amount: nat, g: Uuid, h: Uuid, attempt: Uuid, one: nat, oneToken: Uuid, two: nat,
      twoToken: Uuid, ids: Two<Uuid>, now: Time)
    returns (w: Coord)
    requires MayIssue(t, c, amount, h, one, oneToken, two, twoToken) && CanBook(t.reg, ids)
    requires var p := t.reg.contracts[c].parties;
             CanReserve(t.reg, p.first, amount) && CanReserve(t.reg, p.second, amount)
    requires g in t.reg.grants && t.reg.grants[g].Usable() && t.reg.grants[g].capacity == amount
    requires t.reg.grants[g].contract == c
    ensures w == Answered(Issue(t, c, amount, h, attempt, now), h, attempt, one, oneToken, two, twoToken, ids, ids, now)
    ensures BothUsable(w.reg, g, h, amount) && w.reg.grants[g].contract == c && w.reg.contracts == t.reg.contracts
    ensures SameClusters(t.reg.clusters, w.reg.clusters)
  {
    var u := Issue(t, c, amount, h, attempt, now);
    IssueOpensFlow(t, c, amount, h, attempt, now, one, oneToken, two, twoToken);
    FlowCompletes(u, h, one, oneToken, two, twoToken, ids, ids, now);
    AnsweredFlow(u, h, one, oneToken, two, twoToken, ids, ids, now);
    ReserveFrame(WithGrant(u.reg, h, Full(u, h)), Full(u, h), ids, now);
    ReserveIsSame(WithGrant(u.reg, h, Full(u, h)), Full(u, h), ids, now);
    w := Answered(u, h, attempt, one, oneToken, two, twoToken, ids, ids, now);
  }

  /** Two usable grants over one contract count twice at its endpoints. */
  lemma BothCount(r: Registry, g: Uuid, h: Uuid, amount: nat, e: Name)
    requires BothUsable(r, g, h, amount) && NamesEndpoint(r.contracts, r.grants[g], e)
    ensures UsableCapacity(r, e) >= 2 * amount
  {
    SumRemove(r.grants, UsableFor(r.contracts, e), g);
    SumRemove(r.grants - {g}, UsableFor(r.contracts, e), h);
  }

  /** The agents of the contract, with the records of theirs that are stored. */
  predicate Agents(s: Coord, c: Contract, one: nat, oneToken: Uuid, two: nat, twoToken: Uuid, a: Cluster, b: Cluster) {
    && a.id == c.parties.first.cluster && b.id == c.parties.second.cluster && a.id != b.id
    && a.id in s.reg.clusters && s.reg.clusters[a.id] == a && b.id in s.reg.clusters && s.reg.clusters[b.id] == b
    && Sends(s, one, oneToken, a) && Sends(s, two, twoToken, b) && !a.generationConflict && !b.generationConflict
    && s.sessions[one].incarnation == a.incarnation && s.sessions[two].incarnation == b.incarnation
    && PutCluster(s.reg, a).Success? && PutCluster(s.reg, b).Success?
  }

  function ReportedAgain(
      t: Coord, one: nat, oneToken: Uuid, two: nat, twoToken: Uuid, a: Cluster, b: Cluster, now: Time)
    : Coord
  {
    OnReport(OnReport(t, one, oneToken, a, [], now), two, twoToken, b, [], now)
  }

  /** Both records are stored as they were sent. */
  lemma BothStored(
      s: Coord, t: Coord, c: Contract, one: nat, oneToken: Uuid, two: nat, twoToken: Uuid, a: Cluster, b: Cluster,
      now: Time)
    requires Agents(s, c, one, oneToken, two, twoToken, a, b)
    requires SameClusters(s.reg.clusters, t.reg.clusters) && t.sessions == s.sessions
    ensures ReportedAgain(t, one, oneToken, two, twoToken, a, b, now)
         == t.(reg := WithCluster(WithCluster(t.reg, a.id, a), b.id, b))
  {
    assert SameButCounters(a, t.reg.clusters[a.id]) && SameButCounters(b, t.reg.clusters[b.id]);
    RepeatedReport(t, one, oneToken, a, now);
    RepeatedReport(t.(reg := WithCluster(t.reg, a.id, a)), two, twoToken, b, now);
  }

  /** What a second grant needs beside the room: the contract still takes it, and there is a place for it. */
  predicate SecondFits(s: Coord, g: Uuid, h: Uuid)
    requires g in s.reg.grants && s.reg.grants[g].contract in s.reg.contracts
  {
    var c, amount := s.reg.grants[g].contract, s.reg.grants[g].capacity;
    && Open(s.reg.contracts[c]) && 0 < amount <= s.reg.contracts[c].capacity && amount <= MAX_CAPACITY
    && c != 0 && h != 0 && h !in s.reg.grants && |s.reg.grants| < MAX_GRANTS
  }

  lemma MayIssueSecond(
      s: Coord, t: Coord, g: Uuid, h: Uuid, one: nat, oneToken: Uuid, two: nat, twoToken: Uuid, a: Cluster, b: Cluster)
    requires g in s.reg.grants && s.reg.grants[g].contract in s.reg.contracts && SecondFits(s, g, h)
    requires Agents(s, s.reg.contracts[s.reg.grants[g].contract], one, oneToken, two, twoToken, a, b)
    requires t.reg.contracts == s.reg.contracts && t.reg.grants.Keys == s.reg.grants.Keys && t.sessions == s.sessions
    requires a.id in t.reg.clusters && t.reg.clusters[a.id] == a && b.id in t.reg.clusters && t.reg.clusters[b.id] == b
    ensures MayIssue(t, s.reg.grants[g].contract, s.reg.grants[g].capacity, h, one, oneToken, two, twoToken)
  {
    assert |t.reg.grants| == |t.reg.grants.Keys| && |s.reg.grants| == |s.reg.grants.Keys|;
  }

  /** The grant is in use, and the clusters are as the reports say. */
  lemma ReportsAfterServing(
      s: Coord, served: Coord, g: Uuid, one: nat, oneToken: Uuid, two: nat, twoToken: Uuid, ids: Two<Uuid>,
      a: Cluster, b: Cluster, now: Time)
    returns (t: Coord)
    requires g in s.reg.grants && s.reg.grants[g].contract in s.reg.contracts
    requires Agents(s, s.reg.contracts[s.reg.grants[g].contract], one, oneToken, two, twoToken, a, b)
    requires served.reg == CommittedAfter(s.reg, g, Full(s, g), ids, now) && served.sessions == s.sessions
    ensures t == ReportedAgain(served, one, oneToken, two, twoToken, a, b, now)
    ensures t.reg.contracts == s.reg.contracts && t.sessions == s.sessions
    ensures t.reg.reservations == served.reg.reservations
    ensures t.reg.grants.Keys == s.reg.grants.Keys && t.reg.grants[g] == Full(s, g).(state := Committed)
    ensures a.id in t.reg.clusters && t.reg.clusters[a.id] == a && b.id in t.reg.clusters && t.reg.clusters[b.id] == b
    ensures SameClusters(s.reg.clusters, t.reg.clusters)
  {
    var c, full := s.reg.grants[g].contract, Full(s, g);
    CommittedParts(s.reg, g, full, ids, now);
    CommittedClusters(s.reg, g, full, ids, now);
    CommittedKeys(s.reg, g, full, ids, now);
    BothStored(s, served, s.reg.contracts[c], one, oneToken, two, twoToken, a, b, now);
    t := ReportedAgain(served, one, oneToken, two, twoToken, a, b, now);
    StoredIsSame(s.reg.clusters, served.reg.clusters, a, b);
  }

  lemma CommittedClusters(r: Registry, g: Uuid, full: Grant, ids: Two<Uuid>, now: Time)
    ensures SameClusters(r.clusters, CommittedAfter(r, g, full, ids, now).clusters)
  {
    ReserveIsSame(WithGrant(r, g, full), full, ids, now);
  }

  lemma StoredIsSame(m: map<Name, Cluster>, n: map<Name, Cluster>, a: Cluster, b: Cluster)
    requires SameClusters(m, n) && a.id in m && m[a.id] == a && b.id in m && m[b.id] == b
    ensures SameClusters(m, n[a.id := a][b.id := b])
  {
  }

  /** Every open flow with room for its grant: once it is served, both agents repeat the records the
      coordinator already had from them, and a second grant of the same size is served as well.  The endpoints
      of the contract then carry it twice, whatever their capacity. */
  lemma ServedTwice(
      s: Coord, g: Uuid, h: Uuid, attempt: Uuid, one: nat, oneToken: Uuid, two: nat, twoToken: Uuid, ids: Two<Uuid>,
      again: Two<Uuid>, a: Cluster, b: Cluster, now: Time, e: Name)
    returns (served: Coord, w: Coord)
    requires Ready(s, g, one, oneToken, two, twoToken, ids, again) && SecondFits(s, g, h)
    requires Agents(s, s.reg.contracts[s.reg.grants[g].contract], one, oneToken, two, twoToken, a, b)
    requires var p, amount := PartiesOf(s.reg, g), s.reg.grants[g].capacity;
             CanReserve(s.reg, p.first, amount) && CanReserve(s.reg, p.second, amount)
    requires NamesEndpoint(s.reg.contracts, s.reg.grants[g], e)
    ensures served == Answered(s, g, s.reg.grants[g].attempt, one, oneToken, two, twoToken, ids, ids, now)
    ensures var c, amount := s.reg.grants[g].contract, s.reg.grants[g].capacity;
            && w == Answered(Issue(ReportedAgain(served, one, oneToken, two, twoToken, a, b, now), c, amount, h,
                                   attempt, now),
                             h, attempt, one, oneToken, two, twoToken, again, again, now)
            && BothUsable(w.reg, g, h, amount) && UsableCapacity(w.reg, e) >= 2 * amount
    ensures SameClusters(s.reg.clusters, w.reg.clusters)
  {
    var c, amount := s.reg.grants[g].contract, s.reg.grants[g].capacity;
    served := Answered(s, g, s.reg.grants[g].attempt, one, oneToken, two, twoToken, ids, ids, now);
    FlowServes(s, g, one, oneToken, two, twoToken, ids, again, now);
    CommittedBooks(s.reg, g, Full(s, g), ids, again, now);
    var t := ReportsAfterServing(s, served, g, one, oneToken, two, twoToken, ids, a, b, now);
    MayIssueSecond(s, t, g, h, one, oneToken, two, twoToken, a, b);
    w := SecondIsServed(t, c, amount, g, h, attempt, one, oneToken, two, twoToken, again, now);
    BothCount(w.reg, g, h, amount, e);
    SameClustersTransitive(s.reg.clusters, t.reg.clusters, w.reg.clusters);
  }

  /** The reservation of the served grant, which the counters no longer show once the agents have reported. */
  lemma ServedHolds(r: Registry, g: Uuid, full: Grant, ids: Two<Uuid>, now: Time)
    requires ids.first != ids.second && full.contract in r.contracts
    requires Reserve(WithGrant(r, g, full), full, ids, now).ok
    ensures Held(CommittedAfter(r, g, full, ids, now).reservations, r.contracts[full.contract].parties.first.endpoint)
         >= full.capacity
  {
    var s := Reserve(WithGrant(r, g, full), full, ids, now).reg;
    var e := r.contracts[full.contract].parties.first.endpoint;
    ReserveBacksBoth(WithGrant(r, g, full), full, ids, now);
    var k :| k in s.reservations && Backs(s.reservations[k], full.id, e, full.capacity);
    SumRemove(s.reservations, HeldFor(e), k);
  }

  /** More is in use at the endpoint than it has. */
  ghost predicate Overcommitted(r: Registry, c: Name, e: Name) {
    Declares(r, c, e) && UsableCapacity(r, e) > r.clusters[c].endpoints[e].capacity
  }

  lemma CommittedKeys(r: Registry, g: Uuid, full: Grant, ids: Two<Uuid>, now: Time)
    requires g in r.grants
    ensures CommittedAfter(r, g, full, ids, now).grants.Keys == r.grants.Keys
  {
    ReserveFrame(WithGrant(r, g, full), full, ids, now);
  }

  // ---- a run from an empty coordinator ----

  lemma FullIsReady(digest: Terms -> Digest, s: Coord)
    requires s == Issued(digest, 10)
    ensures Ready(s, 21, 1, 11, 2, 12, BOTH, AGAIN)
    ensures var p := PartiesOf(s.reg, 21); CanReserve(s.reg, p.first, 10) && CanReserve(s.reg, p.second, 10)
    ensures s.reg.grants[21].attempt == 22 && s.reg.grants[21].capacity == 10 && s.reg.grants[21].contract == 9
    ensures s.reg.contracts[9].parties == TERMS.parties
  {
    IssuedParts(digest, 10);
    EndpointsHaveRoom(s.reg, First, 10);
    EndpointsHaveRoom(s.reg, Second, 10);
    TwoNames();
  }

  lemma FullLeavesPlace(digest: Terms -> Digest, s: Coord)
    requires s == Issued(digest, 10)
    ensures 21 in s.reg.grants && s.reg.grants[21].contract in s.reg.contracts && SecondFits(s, 21, 41)
  {
    IssuedParts(digest, 10);
    ConsentsSecond(digest);
  }

  lemma FullHasAgents(digest: Terms -> Digest, s: Coord)
    requires s == Issued(digest, 10)
    ensures Agents(s, AfterBoth(digest), 1, 11, 2, 12, REPORT_A, REPORT_B)
  {
    IssuedParts(digest, 10);
    AgentsStored(s, AfterBoth(digest));
  }

  lemma AgentsStored(s: Coord, c: Contract)
    requires s.reg.clusters == ROUTED.reg.clusters && s.sessions == ROUTED.sessions && c.parties == TERMS.parties
    ensures Agents(s, c, 1, 11, 2, 12, REPORT_A, REPORT_B)
  {
    TwoNames();
    assert HELLO_A.cluster in s.reg.clusters && s.reg.clusters[HELLO_A.cluster] == REPORT_A;
    assert HELLO_B.cluster in s.reg.clusters && s.reg.clusters[HELLO_B.cluster] == REPORT_B;
    StoresReport(s.reg, REPORT_A);
    StoresReport(s.reg, REPORT_B);
  }

  ghost function ServedInFull(digest: Terms -> Digest): Coord {
    Answered(Issued(digest, 10), 21, 22, 1, 11, 2, 12, BOTH, BOTH, 0)
  }

  /** The second grant of the whole capacity, issued after both agents have repeated their first reports. */
  ghost function ServedOnceMore(served: Coord): Coord {
    var reported := ReportedAgain(served, 1, 11, 2, 12, REPORT_A, REPORT_B, 0);
    Answered(Issue(reported, 9, 10, 41, 42, 0), 41, 42, 1, 11, 2, 12, AGAIN, AGAIN, 0)
  }

  /** The report does not match the ledger, it is accepted, and two grants of the whole capacity end in use. */
  lemma ReportsOvercommit(digest: Terms -> Digest) returns (served: Coord, w: Coord)
    ensures served == ServedInFull(digest) && w == ServedOnceMore(served)
    ensures !ReportMatches(served.reg, REPORT_A, false)
    ensures BothUsable(w.reg, 21, 41, 10) && Overcommitted(w.reg, HELLO_A.cluster, QUERY.source)
  {
    var s := Issued(digest, 10);
    FullIsReady(digest, s);
    FullLeavesPlace(digest, s);
    FullHasAgents(digest, s);
    served, w := FullServedTwice(s);
  }

  lemma FullServedTwice(s: Coord) returns (served: Coord, w: Coord)
    requires Ready(s, 21, 1, 11, 2, 12, BOTH, AGAIN) && SecondFits(s, 21, 41)
    requires var p := PartiesOf(s.reg, 21); CanReserve(s.reg, p.first, 10) && CanReserve(s.reg, p.second, 10)
    requires s.reg.grants[21].attempt == 22 && s.reg.grants[21].capacity == 10 && s.reg.grants[21].contract == 9
    requires s.reg.contracts[9].parties == TERMS.parties
    requires Agents(s, s.reg.contracts[9], 1, 11, 2, 12, REPORT_A, REPORT_B)
    ensures served == Answered(s, 21, 22, 1, 11, 2, 12, BOTH, BOTH, 0) && w == ServedOnceMore(served)
    ensures !ReportMatches(served.reg, REPORT_A, false)
    ensures BothUsable(w.reg, 21, 41, 10) && Overcommitted(w.reg, HELLO_A.cluster, QUERY.source)
  {
    var e := QUERY.source;
    served, w := ServedTwice(s, 21, 41, 42, 1, 11, 2, 12, BOTH, AGAIN, REPORT_A, REPORT_B, 0, e);
    FlowServes(s, 21, 1, 11, 2, 12, BOTH, AGAIN, 0);
    ServedHolds(s.reg, 21, Full(s, 21), BOTH, 0);
    assert e in REPORT_A.endpoints && REPORT_A.endpoints[e] == ENDPOINT_A;
    assert SameButCounters(REPORT_A, w.reg.clusters[HELLO_A.cluster]);
    assert SameButCounter(REPORT_A.endpoints[e], w.reg.clusters[HELLO_A.cluster].endpoints[e]);
  }
}
