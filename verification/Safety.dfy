/** What the protocol is for: an authorization always rests on what both agents really did. */
module Safety {
  import opened Model
  import opened Engine
  import opened Fencing
  import opened Planning
  import opened Coordination
  import opened Frames
  import opened Agents
  import opened Evidence
  import opened Protocol
  import opened ProtocolProof

  /** The view the coordinator decides under. */
  function ViewOf(s: Coord, now: Time): View {
    View(s.term, s.incarnation, now)
  }

  // ---- both agents enforce what is authorized ----

  lemma AuthorizedIsAcknowledged(s: Coord, q: Query, now: Time, c: Uuid, g: Uuid)
    requires Authorizes(s.reg, q, ViewOf(s, now), c, g)
    ensures c in s.reg.contracts && g in s.reg.grants && s.reg.grants[g].contract == c
    ensures s.reg.grants[g].BothAcknowledged() && s.reg.grants[g].coordinator == s.incarnation
  {
    AuthorizedGrant(s.reg, q, ViewOf(s, now), c, g);
  }

  lemma AuthorizedBinding(s: Coord, q: Query, now: Time, c: Uuid, g: Uuid, side: Side)
    requires Authorizes(s.reg, q, ViewOf(s, now), c, g)
    ensures c in s.reg.contracts && g in s.reg.grants && s.reg.grants[g].contract == c
    ensures var party := s.reg.contracts[c].parties.At(side);
            party.cluster in s.reg.clusters
              && s.reg.grants[g].bindings.At(side) == BindingOf(s.reg.clusters[party.cluster])
  {
    AuthorizedGrant(s.reg, q, ViewOf(s, now), c, g);
    assert CheckBinding(s.reg, s.reg.contracts[c], s.reg.grants[g], side) == Ok;
  }

  lemma EnforcedNow(
      s: Coord, conns: map<nat, Peer>, h: History, digest: Terms -> Digest, q: Query, now: Time, c: Uuid, g: Uuid,
      side: Side)
    requires CoordOk(s, conns, h, digest) && Authorizes(s.reg, q, ViewOf(s, now), c, g)
    ensures c in s.reg.contracts && g in s.reg.grants && s.reg.contracts[c].parties.At(side).cluster in s.reg.clusters
    ensures var party := s.reg.contracts[c].parties.At(side).cluster;
            Activation(party, s.reg.clusters[party].incarnation, g, s.reg.grants[g].attempt) in h.activations
  {
    AuthorizedIsAcknowledged(s, q, now, c, g);
    AuthorizedBinding(s, q, now, c, g, side);
    assert GrantBacked(s.reg, s.incarnation, h, g);
  }

  /** The agent runs in the incarnation and holds the attempt as Active. */
  predicate Enforces(w: World, x: Activation) {
    && x.cluster in w.agents && w.agents[x.cluster].incarnation == x.incarnation
    && x.grant in w.agents[x.cluster].reg.grants
    && w.agents[x.cluster].reg.grants[x.grant].state == GrantActive
    && w.agents[x.cluster].reg.grants[x.grant].attempt == x.attempt
  }

  lemma NewActivation(v: World, step: Step, w: World, digest: Terms -> Digest, x: Activation)
    requires AgentsOk(v) && Moves(v, step, w, digest) && x in w.history.activations && x !in v.history.activations
    ensures Enforces(w, x)
  {
    assert step.AgentActs?;
    var a := v.agents[step.cluster];
    assert AgentOk(v, step.cluster, a);
    AgentKeepsPeer(a, step.event, digest);
    assert x in ActiveNow(AgentNext(a, step.event, digest).agent);
  }

  lemma NewInRun(worlds: seq<World>, steps: seq<Step>, digest: Terms -> Digest, i: nat, x: Activation)
    requires IsRun(worlds, steps, digest) && Init(worlds[0]) && i < |steps|
    requires x in worlds[i + 1].history.activations && x !in worlds[i].history.activations
    ensures Enforces(worlds[i + 1], x)
  {
    InvAlways(worlds, steps, digest, i);
    NewActivation(worlds[i], steps[i], worlds[i + 1], digest, x);
  }

  /** Each recorded activation was, at that or an earlier point of the run, the stored state of the agent. */
  lemma {:induction false} ActivationHappened(
      worlds: seq<World>, steps: seq<Step>, digest: Terms -> Digest, i: nat, x: Activation) returns (j: nat)
    requires IsRun(worlds, steps, digest) && Init(worlds[0]) && i < |worlds| && x in worlds[i].history.activations
    ensures j <= i && Enforces(worlds[j], x)
    decreases i
  {
    if i == 0 {
      assert false;
    } else if x in worlds[i - 1].history.activations {
      j := ActivationHappened(worlds, steps, digest, i - 1, x);
    } else {
      NewInRun(worlds, steps, digest, i - 1, x);
      j := i;
    }
  }

  /** In every run: whenever `decide` authorizes over a grant, the agent of each party has earlier stored
      exactly the current attempt of that grant as Active, running in the incarnation now on record for
      its cluster. */
  lemma AuthorizedIsEnforced(
      worlds: seq<World>, steps: seq<Step>, digest: Terms -> Digest, i: nat, q: Query, now: Time, c: Uuid, g: Uuid,
      side: Side)
    returns (j: nat)
    requires IsRun(worlds, steps, digest) && Init(worlds[0]) && i < |worlds|
    requires Authorizes(worlds[i].coord.reg, q, ViewOf(worlds[i].coord, now), c, g)
    ensures var r := worlds[i].coord.reg;
            && c in r.contracts && g in r.grants && r.contracts[c].parties.At(side).cluster in r.clusters
            && var party := r.contracts[c].parties.At(side).cluster;
               j <= i && Enforces(worlds[j], Activation(party, r.clusters[party].incarnation, g, r.grants[g].attempt))
  {
    var w := worlds[i];
    InvAlways(worlds, steps, digest, i);
    EnforcedNow(w.coord, w.conns, w.history, digest, q, now, c, g, side);
    var party := w.coord.reg.contracts[c].parties.At(side).cluster;
    var x := Activation(party, w.coord.reg.clusters[party].incarnation, g, w.coord.reg.grants[g].attempt);
    j := ActivationHappened(worlds, steps, digest, i, x);
  }

  // ---- both agents agreed to the same terms ----

  /** No two terms that were proposed or accepted share a digest. */
  ghost predicate CollisionFree(h: History, digest: Terms -> Digest) {
    forall t, u :: InPlay(h, t) && InPlay(h, u) && digest(t) == digest(u) ==> t == u
  }

  ghost predicate InPlay(h: History, t: Terms) {
    t in h.proposals || exists c :: Acceptance(c, t) in h.acceptances
  }

  lemma AuthorizedConsent(s: Coord, q: Query, now: Time, c: Uuid, g: Uuid, side: Side)
    requires Authorizes(s.reg, q, ViewOf(s, now), c, g)
    ensures c in s.reg.contracts && s.reg.contracts[c].parties.At(side).cluster in s.reg.clusters
    ensures var k := s.reg.contracts[c];
            && k.consents.At(side).Some? && k.consents.At(side).value.decision == ConsentAccepted
            && k.consents.At(side).value.termsDigest == k.termsDigest
            && var consent := k.consents.At(side).value;
               Binding(consent.incarnation, consent.generation, consent.policyGeneration)
               == BindingOf(s.reg.clusters[k.parties.At(side).cluster])
  {
    AuthorizedGrant(s.reg, q, ViewOf(s, now), c, g);
    assert s.reg.contracts[c].BothConsented();
    assert CheckConsent(s.reg, s.reg.contracts[c], side) == Ok;
  }

  /** The cluster accepted the proposed terms, and they name what is on record for it. */
  lemma PartyAccepted(
      s: Coord, conns: map<nat, Peer>, h: History, digest: Terms -> Digest, q: Query, now: Time, c: Uuid, g: Uuid,
      t: Terms, side: Side)
    requires CoordOk(s, conns, h, digest) && CollisionFree(h, digest) && Authorizes(s.reg, q, ViewOf(s, now), c, g)
    requires c in s.reg.contracts && ProposedAs(h, digest, s.reg.contracts[c], t)
    ensures var party := s.reg.contracts[c].parties.At(side).cluster;
            Acceptance(party, t) in h.acceptances && party in s.reg.clusters
              && t.bindings.At(side) == BindingOf(s.reg.clusters[party])
  {
    AuthorizedConsent(s, q, now, c, g, side);
    var k := s.reg.contracts[c];
    var party := k.parties.At(side).cluster;
    assert ContractBacked(h, digest, k);
    assert ConsentBacked(h, digest, party, k.consents.At(side));
    var u :| AcceptedTerms(h, digest, party, k.termsDigest, BindingOf(s.reg.clusters[party]), u);
    assert InPlay(h, t) && InPlay(h, u);
    assert u == t && t.SideOf(party) == Some(side);
  }

  /** Both clusters of the contract accepted the terms, which name what is on record for them. */
  ghost predicate AgreedOn(r: Registry, h: History, c: Uuid, t: Terms) {
    && c in r.contracts && t.parties == r.contracts[c].parties && t in h.proposals
    && var a, b := t.parties.first.cluster, t.parties.second.cluster;
    && Acceptance(a, t) in h.acceptances && Acceptance(b, t) in h.acceptances
    && a in r.clusters && b in r.clusters && a != b
    && t.bindings == Two(BindingOf(r.clusters[a]), BindingOf(r.clusters[b]))
  }

  lemma ProposedIsAgreed(
      s: Coord, conns: map<nat, Peer>, h: History, digest: Terms -> Digest, q: Query, now: Time, c: Uuid, g: Uuid,
      t: Terms)
    requires CoordOk(s, conns, h, digest) && CollisionFree(h, digest) && Authorizes(s.reg, q, ViewOf(s, now), c, g)
    requires c in s.reg.contracts && ProposedAs(h, digest, s.reg.contracts[c], t)
    ensures AgreedOn(s.reg, h, c, t)
  {
    PartyAccepted(s, conns, h, digest, q, now, c, g, t, First);
    PartyAccepted(s, conns, h, digest, q, now, c, g, t, Second);
  }

  lemma AgreedNow(
      s: Coord, conns: map<nat, Peer>, h: History, digest: Terms -> Digest, q: Query, now: Time, c: Uuid, g: Uuid)
    returns (t: Terms)
    requires CoordOk(s, conns, h, digest) && CollisionFree(h, digest) && Authorizes(s.reg, q, ViewOf(s, now), c, g)
    ensures AgreedOn(s.reg, h, c, t)
  {
    AuthorizedIsAcknowledged(s, q, now, c, g);
    assert ContractBacked(h, digest, s.reg.contracts[c]);
    t :| ProposedAs(h, digest, s.reg.contracts[c], t);
    ProposedIsAgreed(s, conns, h, digest, q, now, c, g, t);
  }

  /** In this step the agent of the cluster takes a proposal of the terms and finds them acceptable. */
  predicate Accepts(w: World, step: Step, x: Acceptance) {
    && step.AgentActs? && step.cluster == x.cluster && x.cluster in w.agents
    && step.event.GetsProposal? && step.event.terms == x.terms && Acceptable(w.agents[x.cluster], x.terms)
  }

  lemma NewAcceptance(v: World, step: Step, w: World, digest: Terms -> Digest, x: Acceptance)
    requires AgentsOk(v) && Moves(v, step, w, digest) && x in w.history.acceptances && x !in v.history.acceptances
    ensures Accepts(v, step, x)
  {
    assert step.AgentActs?;
    var a := v.agents[step.cluster];
    assert AgentOk(v, step.cluster, a);
    assert x in AcceptedNow(a, step.event, AgentNext(a, step.event, digest));
  }

  lemma NewAcceptanceInRun(worlds: seq<World>, steps: seq<Step>, digest: Terms -> Digest, i: nat, x: Acceptance)
    requires IsRun(worlds, steps, digest) && Init(worlds[0]) && i < |steps|
    requires x in worlds[i + 1].history.acceptances && x !in worlds[i].history.acceptances
    ensures Accepts(worlds[i], steps[i], x)
  {
    InvAlways(worlds, steps, digest, i);
    NewAcceptance(worlds[i], steps[i], worlds[i + 1], digest, x);
  }

  /** Each recorded acceptance was an earlier step of that agent. */
  lemma {:induction false} AcceptanceHappened(
      worlds: seq<World>, steps: seq<Step>, digest: Terms -> Digest, i: nat, x: Acceptance) returns (j: nat)
    requires IsRun(worlds, steps, digest) && Init(worlds[0]) && i < |worlds| && x in worlds[i].history.acceptances
    ensures j < i && Accepts(worlds[j], steps[j], x)
    decreases i
  {
    if i == 0 {
      assert false;
    } else if x in worlds[i - 1].history.acceptances {
      j := AcceptanceHappened(worlds, steps, digest, i - 1, x);
    } else {
      NewAcceptanceInRun(worlds, steps, digest, i - 1, x);
      j := i - 1;
    }
  }

  /** In every run, with a digest that does not collide: whenever `decide` authorizes a contract, both
      agents accepted one and the same terms, each in an earlier step of the run; the terms are those the
      coordinator proposed for it, and name the incarnation, generation and policy generation now on record
      for both clusters. */
  lemma AuthorizedIsAgreed(
      worlds: seq<World>, steps: seq<Step>, digest: Terms -> Digest, i: nat, q: Query, now: Time, c: Uuid, g: Uuid)
    returns (t: Terms, first: nat, second: nat)
    requires IsRun(worlds, steps, digest) && Init(worlds[0]) && i < |worlds|
    requires CollisionFree(worlds[i].history, digest)
    requires Authorizes(worlds[i].coord.reg, q, ViewOf(worlds[i].coord, now), c, g)
    ensures AgreedOn(worlds[i].coord.reg, worlds[i].history, c, t)
    ensures first < i && Accepts(worlds[first], steps[first], Acceptance(t.parties.first.cluster, t))
    ensures second < i && Accepts(worlds[second], steps[second], Acceptance(t.parties.second.cluster, t))
  {
    InvAlways(worlds, steps, digest, i);
    t := AgreedNow(worlds[i].coord, worlds[i].conns, worlds[i].history, digest, q, now, c, g);
    first := AcceptanceHappened(worlds, steps, digest, i, Acceptance(t.parties.first.cluster, t));
    second := AcceptanceHappened(worlds, steps, digest, i, Acceptance(t.parties.second.cluster, t));
  }

  // ---- acknowledgements and attempts ----

  /** Revalidation with a new attempt keeps an acknowledgement exactly when the contract is missing. */
  lemma AttemptChangeDropsAcknowledgements(s: Coord, g: Uuid, attempt: Uuid, now: Time, side: Side)
    requires g in s.reg.grants && s.reg.grants[g].attempt != attempt && s.reg.grants[g].acknowledged.At(side)
    requires s.reg.grants[g].state != GrantFenced
    ensures var t := Revalidate(s, g, attempt, now);
            && g in t.reg.grants && t.reg.grants[g].attempt == attempt
            && (t.reg.grants[g].acknowledged.At(side) <==> s.reg.grants[g].contract !in s.reg.contracts)
  {
    RevalidateRecords(s, g, attempt, now);
  }

  /** And then nothing is authorized over the grant. */
  lemma OrphanAuthorizesNothing(s: Coord, q: Query, now: Time, c: Uuid, g: Uuid)
    requires g in s.reg.grants && s.reg.grants[g].contract !in s.reg.contracts
    ensures !Authorizes(s.reg, q, ViewOf(s, now), c, g)
  {
    if Authorizes(s.reg, q, ViewOf(s, now), c, g) { AuthorizedIsAcknowledged(s, q, now, c, g); }
  }

  // ---- restart ----

  /** Right after a restart no query is authorized, whatever was recovered. */
  lemma RestartAuthorizesNothing(w: World, step: Step, digest: Terms -> Digest, q: Query, v: View, c: Uuid, g: Uuid)
    requires step.Restarts? && Enabled(w, step)
    ensures NoAuthority(Next(w, step, digest).coord.reg) && !Authorizes(Next(w, step, digest).coord.reg, q, v, c, g)
  {
    RecoveryFencesAll(step.recovered, step.plan, step.now);
    NoAuthorityAuthorizesNothing(Next(w, step, digest).coord.reg, q, v, c, g);
  }
}
