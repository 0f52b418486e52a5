/** What each event does to an agent, told by the fields of its records: which grants stay enforced, which terms
    are accepted, which grants prepared and committed (src/runtime/agent.cpp). */
module AgentEffects {
  import opened Model
  import opened Coordination
  import opened Agents
  import opened AgentRuns

  // ---- enforcement ----

  predicate BindsTo(b: Binding, a: Agent) {
    b.incarnation == a.incarnation && b.generation == a.generation && b.policy == a.policyGeneration
  }

  /** On the agent's side of the parties, the second when both slots name its cluster. */
  predicate BoundHere(a: Agent, parties: Two<Party>, bindings: Two<Binding>) {
    if parties.second.cluster == a.cluster then BindsTo(bindings.second, a)
    else parties.first.cluster == a.cluster && BindsTo(bindings.first, a)
  }

  /** The agent answers to its coordinator for the grant: contract, binding, term, and its own standing. */
  predicate Covered(a: Agent, g: Grant) {
    && g.contract in a.reg.contracts && BoundHere(a, a.reg.contracts[g.contract].parties, g.bindings)
    && g.term == a.coordinatorTerm && !a.withdrawn && a.state == ClusterActive
  }

  /** What the clock and the agent's standing leave of a grant: an active one stays so within its lease, and
      while it is covered if the coordinator is required; past its lease it is expired, otherwise fenced.  A
      committed one can only expire, and every other is as it was. */
  predicate GrantSettles(a: Agent, g: Grant, h: Grant, now: Time) {
    && h == g.(state := h.state)
    && (g.state == GrantActive ==>
          h.state == if now > g.validUntil then GrantExpired
                     else if a.requireCoordinator && !Covered(a, g) then GrantFenced
                     else GrantActive)
    && (g.state == Committed ==> h.state == if now > g.validUntil then GrantExpired else Committed)
    && (g.state != GrantActive && g.state != Committed ==> h.state == g.state)
  }

  /** The grants of `b` are those of `a` so settled. */
  predicate Settled(a: Agent, b: Agent, now: Time) {
    && b.reg.grants.Keys == a.reg.grants.Keys
    && forall g <- a.reg.grants :: GrantSettles(a, a.reg.grants[g], b.reg.grants[g], now)
  }

  lemma ReevaluateSettles(a: Agent, now: Time)
    ensures Settled(a, Reevaluate(a, now), now)
    ensures Reevaluate(a, now) == a.(reg := a.reg.(grants := Reevaluate(a, now).reg.grants))
  {
    forall g | g in a.reg.grants ensures GrantSettles(a, a.reg.grants[g], Reevaluate(a, now).reg.grants[g], now) {
      EnforceableExactly(a, a.reg.grants[g], now);
    }
  }

  lemma EnforceableExactly(a: Agent, g: Grant, now: Time)
    ensures Enforceable(a, g, now) <==>
              g.state == GrantActive && (a.requireCoordinator ==> Covered(a, g) && now <= g.validUntil)
  {
  }

  /** A tick settles every grant and changes nothing else. */
  lemma TickSettles(a: Agent, now: Time, digest: Terms -> Digest)
    ensures var b := AgentNext(a, Ticks(now), digest).agent;
            b == a.(reg := a.reg.(grants := b.reg.grants)) && Settled(a, b, now)
  {
    ReevaluateSettles(a, now);
  }

  // ---- the agent's own record ----

  /** The record of the agent's cluster can be stored. */
  predicate RecordFits(a: Agent) {
    && a.cluster != [] && a.domain != [] && |a.endpoints| <= 4096
    && (forall e <- a.endpoints :: a.endpoints[e].reserved <= a.endpoints[e].capacity)
    && (a.cluster in a.reg.clusters || |a.reg.clusters| < 1024)
  }

  /** The stored record tells the agent's standing and its endpoints, each under the cluster's name and policy
      generation. */
  predicate Recorded(a: Agent, c: Cluster) {
    && c.id == a.cluster && c.domain == a.domain && BindsTo(Binding(c.incarnation, c.generation, c.policyGeneration), a)
    && c.state == a.state && c.consentWithdrawn == a.withdrawn && !c.generationConflict
    && c.endpoints.Keys == a.endpoints.Keys
    && forall e <- a.endpoints ::
         c.endpoints[e] == a.endpoints[e].(cluster := a.cluster, policyGeneration := a.policyGeneration)
  }

  /** `b` has stored the record of `a` and nothing else. */
  predicate Stored(a: Agent, b: Agent) {
    && a.cluster in b.reg.clusters && Recorded(a, b.reg.clusters[a.cluster])
    && b == a.(reg := a.reg.(clusters := a.reg.clusters[a.cluster := b.reg.clusters[a.cluster]]))
  }

  lemma PersistStores(a: Agent, content: Digest)
    ensures Persist(a, content).Some? <==> RecordFits(a)
    ensures Persist(a, content).Some? ==> Stored(a, Persist(a, content).value)
  {
    var c := LocalRecord(a, content);
    assert c.endpoints.Keys == a.endpoints.Keys;
    assert |c.endpoints| == |c.endpoints.Keys| && |a.endpoints| == |a.endpoints.Keys|;
    assert forall e <- a.endpoints :: c.endpoints[e].reserved == a.endpoints[e].reserved;
  }

  /** After a change to `a` that is stored, every grant is settled under the new standing; a record that is
      refused leaves the grants alone. */
  predicate ChangeSettles(a: Agent, b: Agent, now: Time) {
    if RecordFits(a) then
      && a.cluster in b.reg.clusters && Recorded(a, b.reg.clusters[a.cluster]) && Settled(a, b, now)
      && b == a.(reg := a.reg.(clusters := b.reg.clusters, grants := b.reg.grants))
      && b.reg.clusters == a.reg.clusters[a.cluster := b.reg.clusters[a.cluster]]
    else b == a
  }

  lemma StoredSettles(a: Agent, p: Agent, now: Time)
    requires RecordFits(a) && Stored(a, p)
    ensures ChangeSettles(a, Reevaluate(p, now), now)
  {
    ReevaluateSettles(p, now);
    forall g | g in a.reg.grants ensures GrantSettles(a, a.reg.grants[g], Reevaluate(p, now).reg.grants[g], now) {
      assert GrantSettles(p, p.reg.grants[g], Reevaluate(p, now).reg.grants[g], now);
      assert Covered(p, p.reg.grants[g]) <==> Covered(a, a.reg.grants[g]);
    }
  }

  lemma AfterChangeSettles(a: Agent, content: Digest, now: Time)
    ensures ChangeSettles(a, AfterChange(a, content, now).agent, now)
  {
    PersistStores(a, content);
    if RecordFits(a) { StoredSettles(a, Persist(a, content).value, now); }
  }

  /** A withdrawal, a change of state and a policy generation that does not go back settle every grant. */
  lemma WithdrawSettles(a: Agent, content: Digest, now: Time, digest: Terms -> Digest)
    ensures ChangeSettles(a.(withdrawn := true), AgentNext(a, Withdraws(content, now), digest).agent, now)
  {
    var w := a.(withdrawn := true);
    PersistStores(w, content);
    if RecordFits(w) { StoredSettles(w, Persist(w, content).value, now); }
  }

  lemma StateSettles(a: Agent, state: ClusterState, content: Digest, now: Time, digest: Terms -> Digest)
    ensures ChangeSettles(a.(state := state), AgentNext(a, SetsState(state, content, now), digest).agent, now)
  {
    AfterChangeSettles(a.(state := state), content, now);
  }

  lemma PolicySettles(a: Agent, generation: nat, content: Digest, now: Time, digest: Terms -> Digest)
    ensures var b := AgentNext(a, SetsPolicy(generation, content, now), digest).agent;
            if generation < a.policyGeneration then b == a
              else ChangeSettles(a.(policyGeneration := generation), b, now)
  {
    if generation >= a.policyGeneration { AfterChangeSettles(a.(policyGeneration := generation), content, now); }
  }

  /** An agent that answers to its coordinator enforces nothing once it has withdrawn. */
  lemma WithdrawnEnforcesNothing(a: Agent, content: Digest, now: Time, digest: Terms -> Digest, g: Uuid)
    requires a.requireCoordinator && RecordFits(a) && g in a.reg.grants
    ensures var b := AgentNext(a, Withdraws(content, now), digest).agent;
            g in b.reg.grants && b.reg.grants[g].state != GrantActive
  {
    WithdrawSettles(a, content, now, digest);
    assert GrantSettles(a.(withdrawn := true), a.reg.grants[g],
                        AgentNext(a, Withdraws(content, now), digest).agent.reg.grants[g], now);
  }

  // ---- a lapsed grant ----

  /** A grant that is not held comes back only by being prepared again, whatever else happens and however often
      the agent starts anew. */
  lemma {:induction false} LapsedUntilPrepared(a: Agent, steps: seq<LifeStep>, digest: Terms -> Digest, g: Uuid)
    requires g in a.reg.grants ==> !Retained(a.reg.grants[g])
    requires forall i | 0 <= i < |steps| ::
               steps[i].Live? && steps[i].event.GetsPrepare? ==> steps[i].event.grant.id != g
    ensures var b := Life(a, steps, digest); g in b.reg.grants ==> !Retained(b.reg.grants[g])
    decreases |steps|
  {
    if steps != [] {
      var before, last := steps[..|steps| - 1], steps[|steps| - 1];
      LapsedUntilPrepared(a, before, digest, g);
      var b, c := Life(a, before, digest), Life(a, steps, digest);
      match last
      case Live(e) => if g in c.reg.grants && Retained(c.reg.grants[g]) { RetainedStep(b, e, digest, g); }
      case Crash(config, recovered, term, incarnation) =>
        if Begin(config, recovered, term, incarnation).Some? { FreshStart(config, recovered, term, incarnation); }
    }
  }

  /** So a lease ends for good: after a tick past it the grant is not enforced again unless prepared anew. */
  lemma LeaseEnds(a: Agent, now: Time, steps: seq<LifeStep>, digest: Terms -> Digest, g: Uuid)
    requires g in a.reg.grants && a.reg.grants[g].state == GrantActive && now > a.reg.grants[g].validUntil
    requires forall i | 0 <= i < |steps| ::
               steps[i].Live? && steps[i].event.GetsPrepare? ==> steps[i].event.grant.id != g
    ensures var b := Life(AgentNext(a, Ticks(now), digest).agent, steps, digest);
            g in b.reg.grants ==> b.reg.grants[g].state != GrantActive && b.reg.grants[g].state != Committed
  {
    TickSettles(a, now, digest);
    var b := AgentNext(a, Ticks(now), digest).agent;
    assert GrantSettles(a, a.reg.grants[g], b.reg.grants[g], now);
    LapsedUntilPrepared(b, steps, digest, g);
  }

  // ---- consent ----

  predicate Named(p: Party) { p.cluster != [] && p.endpoint != [] && p.domain != [] }

  /** Terms between two clusters of two domains, within the bounds. */
  predicate ProperTerms(t: Terms) {
    && Named(t.parties.first) && Named(t.parties.second) && t.parties.first.cluster != t.parties.second.cluster
    && t.parties.first.domain != t.parties.second.domain
    && t.capacity <= 0x1_0000_0000_0000 && 0 <= t.leaseDuration <= 365 * 24 * 3600 * 1_000_000_000
  }

  /** The endpoint is on record, active and open to other clusters. */
  predicate OffersEndpoint(a: Agent, e: Name) {
    && a.cluster in a.reg.clusters && e in a.reg.clusters[a.cluster].endpoints
    && a.reg.clusters[a.cluster].endpoints[e].state == EndpointActive
    && a.reg.clusters[a.cluster].endpoints[e].interClusterAllowed
  }

  function OwnParty(a: Agent, t: Terms): Party {
    if t.parties.second.cluster == a.cluster then t.parties.second else t.parties.first
  }

  /** What an agent agrees to: proper terms bound to its present incarnation and generations, for an endpoint it
      offers, while its cluster is active and has not withdrawn. */
  predicate Agrees(a: Agent, t: Terms) {
    && ProperTerms(t) && BoundHere(a, t.parties, t.bindings) && OffersEndpoint(a, OwnParty(a, t).endpoint)
    && !a.withdrawn && a.state == ClusterActive
  }

  lemma ProperIsValid(t: Terms)
    ensures t.Validate() == Ok <==> ProperTerms(t)
  {
  }

  lemma AgreesExactly(a: Agent, t: Terms)
    ensures Acceptable(a, t) <==> Agrees(a, t)
  {
    ProperIsValid(t);
  }

  /** The only answer to a proposal, if any: the agent's incarnation, generations and term, the digest of the
      terms, and its decision. */
  lemma AnswersProposal(a: Agent, contract: Uuid, t: Terms, now: Time, digest: Terms -> Digest)
    ensures var sent := AgentNext(a, GetsProposal(contract, t, now), digest).sent;
            && (sent == [] <==>
                Agrees(a, t) && (contract == 0 || (contract !in a.reg.contracts && |a.reg.contracts| >= 65536)))
            && (sent != [] ==>
                  && |sent| == 1 && sent[0].ConsentMessage? && sent[0].token == a.session
                  && var n := sent[0].notice;
                  && n.contract == contract && n.termsDigest == digest(t) && n.agentTerm == a.term
                  && BindsTo(Binding(n.incarnation, n.generation, n.policyGeneration), a)
                  && n.decision == (if Agrees(a, t) then ConsentAccepted else ConsentRefused)
                  && (Agrees(a, t) ==> n.endpoint == OwnParty(a, t).endpoint))
  {
    AgreesExactly(a, t);
  }

  /** Accepted terms are on record before they are answered, with the agent's consent on its own side and what
      was recorded of the other side kept; a refusal leaves the agent as it was. */
  lemma RecordsConsent(a: Agent, contract: Uuid, t: Terms, now: Time, digest: Terms -> Digest)
    ensures var r := AgentNext(a, GetsProposal(contract, t, now), digest);
            if r.sent != [] && Agrees(a, t) then
              && contract in r.agent.reg.contracts
              && r.agent == a.(reg := WithContract(a.reg, contract, r.agent.reg.contracts[contract]))
              && HoldsConsent(a, contract, r.agent.reg.contracts[contract], t, digest(t))
            else r.agent == a
  {
    AgreesExactly(a, t);
  }

  predicate HoldsConsent(a: Agent, contract: Uuid, c: Contract, t: Terms, digest: Digest) {
    var side := if t.parties.second.cluster == a.cluster then Second else First;
    var other := if side == Second then First else Second;
    && c.id == contract && c.parties == t.parties && c.capacity == t.capacity && c.leaseDuration == t.leaseDuration
    && c.termsDigest == digest && c.state == AwaitingConsent && c.consents.At(side).Some?
    && var k := c.consents.At(side).value;
    && k.cluster == a.cluster && k.endpoint == t.parties.At(side).endpoint && k.termsDigest == digest
    && k.decision == ConsentAccepted && BindsTo(Binding(k.incarnation, k.generation, k.policyGeneration), a)
    && c.consents.At(other) == if contract in a.reg.contracts then a.reg.contracts[contract].consents.At(other)
       else None
  }

  // ---- prepare and commit ----

  /** What an agent prepares: a grant of its coordinator's term, for terms it has consented to, bound to its
      present incarnation and generations, within the capacity of its endpoint. */
  predicate Prepares(a: Agent, g: Grant) {
    && g.contract in a.reg.contracts
    && var c := a.reg.contracts[g.contract];
       var side := if c.parties.second.cluster == a.cluster then Second else First;
    && BoundHere(a, c.parties, g.bindings) && g.term == a.coordinatorTerm
    && c.termsDigest == g.termsDigest && c.consents.At(side).Some?
    && c.consents.At(side).value.decision == ConsentAccepted && c.consents.At(side).value.termsDigest == g.termsDigest
    && a.cluster in a.reg.clusters && c.parties.At(side).endpoint in a.reg.clusters[a.cluster].endpoints
    && g.capacity <= a.reg.clusters[a.cluster].endpoints[c.parties.At(side).endpoint].capacity
  }

  predicate GrantFits(a: Agent, g: Grant) {
    && g.id != 0 && g.contract != 0 && g.capacity <= 0x1_0000_0000_0000
    && (g.id in a.reg.grants || |a.reg.grants| < 131072)
  }

  /** The agent says whether it prepared the grant, and has stored it as prepared exactly when it did. */
  lemma PreparesExactly(a: Agent, g: Grant, digest: Terms -> Digest)
    ensures var r, ok := AgentNext(a, GetsPrepare(g), digest), Prepares(a, g) && GrantFits(a, g);
            && r.sent == [PreparedMessage(a.session, g.id, g.attempt, ok)]
            && r.agent == if ok then a.(reg := WithGrant(a.reg, g.id, g.(state := Prepared))) else a
  {
    PreparableExactly(a, g);
  }

  lemma PreparableExactly(a: Agent, g: Grant)
    ensures Preparable(a, g) <==> Prepares(a, g)
  {
  }

  /** A commit takes effect exactly on the attempt that was prepared, or is already active. */
  lemma CommitsExactly(a: Agent, g: Uuid, attempt: Uuid, digest: Terms -> Digest)
    ensures var r := AgentNext(a, GetsCommit(g, attempt), digest);
            var ok := g in a.reg.grants && a.reg.grants[g].attempt == attempt
                      && a.reg.grants[g].state in {Prepared, GrantActive};
            && r.sent == [CommittedMessage(a.session, g, attempt, ok)]
            && r.agent == if ok then a.(reg := WithGrant(a.reg, g, a.reg.grants[g].(state := GrantActive))) else a
  {
  }

  // ---- fences ----

  predicate Held(g: Grant) { g.state in {Prepared, Committed, GrantActive, GrantIndeterminate} }

  /** `h` is `g`, fenced if `fenced`. */
  predicate FencedIf(g: Grant, h: Grant, fenced: bool) {
    h == if fenced then g.(state := GrantFenced) else g
  }

  /** An accepted handshake fences exactly the held grants of another term. */
  lemma HandshakeFences(a: Agent, session: Uuid, term: nat, digest: Terms -> Digest)
    ensures var b := AgentNext(a, GetsHelloAck(true, session, term), digest).agent;
            && b == a.(session := session, coordinatorTerm := term, joined := true,
                       reg := a.reg.(grants := b.reg.grants))
            && b.reg.grants.Keys == a.reg.grants.Keys
            && forall g <- a.reg.grants ::
                 FencedIf(a.reg.grants[g], b.reg.grants[g], Held(a.reg.grants[g]) && a.reg.grants[g].term != term)
  {
  }

  /** A greater generation fences everything enforced, and whatever else is held under another number than the
      agent's own term. */
  lemma BumpFences(a: Agent, content: Digest, digest: Terms -> Digest)
    requires a.generation < 0x4000_0000_0000_0000
    ensures var b := AgentNext(a, Bumps(content), digest).agent;
            && b.generation == a.generation + 1 && b.reg.grants.Keys == a.reg.grants.Keys
            && forall g <- a.reg.grants ::
                 FencedIf(a.reg.grants[g], b.reg.grants[g],
                          Held(a.reg.grants[g])
                          && (a.reg.grants[g].term != a.term || a.reg.grants[g].state in {GrantActive, Committed}))
  {
    BumpedFences(a);
    PersistFrame(Bumped(a), content);
  }

  lemma BumpedFences(a: Agent)
    ensures var b := Bumped(a);
            && b == a.(generation := a.generation + 1, reg := a.reg.(grants := b.reg.grants))
            && b.reg.grants.Keys == a.reg.grants.Keys
            && forall g <- a.reg.grants ::
                 FencedIf(a.reg.grants[g], b.reg.grants[g],
                          Held(a.reg.grants[g])
                          && (a.reg.grants[g].term != a.term || a.reg.grants[g].state in {GrantActive, Committed}))
  {
  }

  /** A start takes over the stored registry with every grant that was held or being prepared fenced.  It never
      goes behind the stored generation or policy generation, keeps a stored state and withdrawal, and uses a
      generation above the stored one unless that was the largest. */
  lemma StartFences(config: AgentConfig, disk: Registry, term: nat, incarnation: Uuid)
    ensures Begin(config, disk, term, incarnation).Some? <==>
              (config.cluster in disk.clusters ==> config.generation >= disk.clusters[config.cluster].generation)
    ensures Begin(config, disk, term, incarnation).Some? ==>
              var a := Begin(config, disk, term, incarnation).value;
              && a.reg == disk.(grants := a.reg.grants) && a.reg.grants.Keys == disk.grants.Keys
              && a.incarnation == incarnation && a.term == term && !a.joined && a.connection == None
              && (forall g <- disk.grants ::
                    FencedIf(disk.grants[g], a.reg.grants[g], Held(disk.grants[g])
                             || disk.grants[g].state == Preparing))
              && (config.cluster in disk.clusters ==> Resumes(a, config, disk.clusters[config.cluster]))
              && (config.cluster !in disk.clusters ==>
                    && a.generation == config.generation && a.policyGeneration == config.policyGeneration
                    && a.state == config.state && !a.withdrawn)
  {
  }

  predicate Resumes(a: Agent, config: AgentConfig, c: Cluster) {
    && a.withdrawn == c.consentWithdrawn
    && a.state == (if c.state == ClusterUnknown then config.state else c.state)
    && a.generation == (if config.generation == c.generation < 0x4000_0000_0000_0000 then c.generation + 1
                        else config.generation)
    && a.policyGeneration >= c.policyGeneration && a.policyGeneration >= config.policyGeneration
    && (a.policyGeneration == c.policyGeneration || a.policyGeneration == config.policyGeneration)
  }

  // ---- other orders ----

  /** An abort, a fence and a fence by the operator end exactly the grants they name. */
  lemma OrdersEnd(a: Agent, g: Uuid, gs: seq<Uuid>, digest: Terms -> Digest)
    ensures AgentNext(a, GetsAbort(g), digest).sent == [AbortedMessage(a.session, g)]
    ensures g in a.reg.grants ==>
              && AgentNext(a, GetsAbort(g), digest).agent
                 == a.(reg := WithGrant(a.reg, g, a.reg.grants[g].(state := Aborted)))
              && AgentNext(a, FencesLocally(g), digest).agent
                 == a.(reg := WithGrant(a.reg, g, a.reg.grants[g].(state := GrantFenced)))
    ensures g !in a.reg.grants ==>
              AgentNext(a, GetsAbort(g), digest).agent == a && AgentNext(a, FencesLocally(g), digest).agent == a
    ensures var b := AgentNext(a, GetsFence(gs), digest).agent;
            && b == a.(reg := a.reg.(grants := b.reg.grants)) && b.reg.grants.Keys == a.reg.grants.Keys
            && forall h <- a.reg.grants :: FencedIf(a.reg.grants[h], b.reg.grants[h], h in gs)
  {
  }

  /** Taking consent back only clears the withdrawal: what was fenced stays fenced. */
  lemma RestoreRevivesNothing(a: Agent, content: Digest, digest: Terms -> Digest)
    ensures var b := AgentNext(a, Restores(content), digest).agent;
            && b == a.(withdrawn := false, reg := a.reg.(clusters := b.reg.clusters))
            && if RecordFits(a) then Stored(a.(withdrawn := false), b) else b.reg == a.reg
  {
    PersistStores(a.(withdrawn := false), content);
  }

  /** A new connection begins with a handshake that tells who the agent is. */
  lemma ConnectsWithHello(a: Agent, conn: nat, digest: Terms -> Digest)
    ensures var r := AgentNext(a, Connects(conn), digest);
            && r.agent == a.(connection := Some(conn), joined := false) && |r.sent| == 1 && r.sent[0].HelloMessage?
            && var h := r.sent[0].hello;
            && h.cluster == a.cluster && h.domain == a.domain
            && BindsTo(Binding(h.incarnation, h.generation, h.policyGeneration), a)
            && (a.cluster in a.reg.clusters ==> h.contentDigest == a.reg.clusters[a.cluster].contentDigest)
  {
  }

  // ---- reports ----

  /** The report of a joined agent: its stored record, under its session. */
  predicate Reports(b: Agent, sent: seq<Message>) {
    if b.joined && b.cluster in b.reg.clusters then sent == [ReportMessage(b.session, b.reg.clusters[b.cluster])]
    else sent == []
  }

  lemma ChangeIsReported(a: Agent, content: Digest, now: Time)
    ensures var r := AfterChange(a, content, now); if RecordFits(a) then Reports(r.agent, r.sent) else r.sent == []
  {
    PersistStores(a, content);
    if RecordFits(a) { ReevaluateSettles(Persist(a, content).value, now); }
  }

  /** A change of state that is stored is reported as it was stored, a refused one is not. */
  lemma StateIsReported(a: Agent, state: ClusterState, content: Digest, now: Time, digest: Terms -> Digest)
    ensures var r := AgentNext(a, SetsState(state, content, now), digest);
            if RecordFits(a) then Reports(r.agent, r.sent) else r.sent == []
  {
    ChangeIsReported(a.(state := state), content, now);
  }

  /** So is a policy generation that does not go back. */
  lemma PolicyIsReported(a: Agent, generation: nat, content: Digest, now: Time, digest: Terms -> Digest)
    ensures var r := AgentNext(a, SetsPolicy(generation, content, now), digest);
            if RecordFits(a) && generation >= a.policyGeneration then Reports(r.agent, r.sent) else r.sent == []
  {
    ChangeIsReported(a.(policyGeneration := generation), content, now);
  }

  /** So are new endpoints. */
  lemma EndpointsAreReported(a: Agent, endpoints: map<Name, Endpoint>, content: Digest, digest: Terms -> Digest)
    ensures var b, r := a.(endpoints := endpoints), AgentNext(a, SetsEndpoints(endpoints, content), digest);
            if RecordFits(b) then Stored(b, r.agent) && Reports(r.agent, r.sent) else r == Reply(b, [])
  {
    PersistStores(a.(endpoints := endpoints), content);
  }

  /** So is a greater generation. */
  lemma BumpIsReported(a: Agent, content: Digest, digest: Terms -> Digest)
    requires a.generation < 0x4000_0000_0000_0000
    ensures var r := AgentNext(a, Bumps(content), digest);
            if RecordFits(a) then Reports(r.agent, r.sent) else r.sent == []
  {
    BumpedFences(a);
    PersistStores(Bumped(a), content);
  }

  /** And so is the record on file after an accepted handshake. */
  lemma HandshakeIsReported(a: Agent, session: Uuid, term: nat, digest: Terms -> Digest)
    ensures var r := AgentNext(a, GetsHelloAck(true, session, term), digest); Reports(r.agent, r.sent)
  {
  }

  /** A joined agent tells its coordinator that it has withdrawn. */
  lemma WithdrawalIsTold(a: Agent, content: Digest, now: Time, digest: Terms -> Digest)
    ensures AgentNext(a, Withdraws(content, now), digest).sent
         == if RecordFits(a) && a.joined then [WithdrawMessage(a.session, a.cluster, a.incarnation, a.generation)]
           else []
  {
    PersistStores(a.(withdrawn := true), content);
  }
}
