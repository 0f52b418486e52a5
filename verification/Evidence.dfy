/** What the coordinator's records are evidence of: acknowledgements of activations, consents of
    acceptances.  Each handler is shown to keep the records backed by what agents really did. */
module Evidence {
  import opened Model
  import opened Engine
  import opened Fencing
  import opened Planning
  import opened Coordination
  import opened Frames
  import opened Agents

  /** An agent, in one incarnation, stored this attempt of the grant as Active. */
  datatype Activation = Activation(cluster: Name, incarnation: Uuid, grant: Uuid, attempt: Uuid)

  /** An agent accepted these terms. */
  datatype Acceptance = Acceptance(cluster: Name, terms: Terms)

  /** What has happened so far: kept by no process, only by the proof. */
  datatype History = History(
    activations: set<Activation>, acceptances: set<Acceptance>, proposals: set<Terms>, stored: set<Contract>)

  predicate Extends(h: History, k: History) {
    && h.activations <= k.activations && h.acceptances <= k.acceptances && h.proposals <= k.proposals
    && h.stored <= k.stored
  }

  // ---- acknowledgements ----

  predicate SideBacked(r: Registry, h: History, g: Uuid, side: Side)
    requires g in r.grants && r.grants[g].contract in r.contracts
  {
    r.grants[g].acknowledged.At(side) ==>
      Activation(r.contracts[r.grants[g].contract].parties.At(side).cluster, r.grants[g].bindings.At(side).incarnation,
                 g, r.grants[g].attempt) in h.activations
  }

  /** Acknowledgements recorded for the serving incarnation. */
  predicate GrantBacked(r: Registry, incarnation: Uuid, h: History, g: Uuid)
    requires g in r.grants
  {
    && r.grants[g].id == g
    && (r.grants[g].coordinator == incarnation && r.grants[g].contract in r.contracts ==>
          SideBacked(r, h, g, First) && SideBacked(r, h, g, Second))
  }

  predicate GrantsBacked(r: Registry, incarnation: Uuid, h: History) {
    forall g <- r.grants :: GrantBacked(r, incarnation, h, g)
  }

  lemma TameKeepsGrants(r: Registry, s: Registry, incarnation: Uuid, h: History, k: History)
    requires GrantsBacked(r, incarnation, h) && Tame(r, s) && Extends(h, k)
    ensures GrantsBacked(s, incarnation, k)
  {
    forall g | g in s.grants ensures GrantBacked(s, incarnation, k, g) {
      assert GrantBacked(r, incarnation, h, g) && GrantKept(r.grants[g], s.grants[g]);
      var c := r.grants[g].contract;
      if c in r.contracts { assert ContractKept(r.contracts[c], s.contracts[c]); }
    }
  }

  // ---- consents ----

  /** The terms behind a digest that the cluster accepted with this binding. */
  ghost predicate AcceptedTerms(h: History, digest: Terms -> Digest, cluster: Name, d: Digest, b: Binding, t: Terms) {
    && Acceptance(cluster, t) in h.acceptances && digest(t) == d
    && t.SideOf(cluster).Some? && t.bindings.At(t.SideOf(cluster).value) == b
  }

  ghost predicate ConsentBacked(h: History, digest: Terms -> Digest, cluster: Name, k: Option<Consent>) {
    k.Some? && k.value.decision == ConsentAccepted ==>
      exists t :: AcceptedTerms(h, digest, cluster, k.value.termsDigest,
                                Binding(k.value.incarnation, k.value.generation, k.value.policyGeneration), t)
  }

  /** The coordinator proposed these terms for the contract. */
  ghost predicate ProposedAs(h: History, digest: Terms -> Digest, c: Contract, t: Terms) {
    t in h.proposals && digest(t) == c.termsDigest && t.parties == c.parties && t.Validate() == Ok
  }

  ghost predicate ContractBacked(h: History, digest: Terms -> Digest, c: Contract) {
    && (exists t :: ProposedAs(h, digest, c, t))
    && ConsentBacked(h, digest, c.parties.first.cluster, c.consents.first)
    && ConsentBacked(h, digest, c.parties.second.cluster, c.consents.second)
  }

  ghost predicate ContractsBacked(r: Registry, h: History, digest: Terms -> Digest) {
    forall c <- r.contracts :: r.contracts[c].id == c && ContractBacked(h, digest, r.contracts[c])
  }

  ghost predicate StoredBacked(h: History, digest: Terms -> Digest) {
    forall c <- h.stored :: ContractBacked(h, digest, c)
  }

  lemma ConsentBackedStays(h: History, k: History, digest: Terms -> Digest, cluster: Name, consent: Option<Consent>)
    requires ConsentBacked(h, digest, cluster, consent) && Extends(h, k)
    ensures ConsentBacked(k, digest, cluster, consent)
  {
    if consent.Some? && consent.value.decision == ConsentAccepted {
      var b := Binding(consent.value.incarnation, consent.value.generation, consent.value.policyGeneration);
      var t :| AcceptedTerms(h, digest, cluster, consent.value.termsDigest, b, t);
      assert AcceptedTerms(k, digest, cluster, consent.value.termsDigest, b, t);
    }
  }

  lemma ContractBackedStays(h: History, k: History, digest: Terms -> Digest, c: Contract, d: Contract)
    requires ContractBacked(h, digest, c) && Extends(h, k)
    requires d.parties == c.parties && d.termsDigest == c.termsDigest && d.consents == c.consents
    ensures ContractBacked(k, digest, d)
  {
    var t :| ProposedAs(h, digest, c, t);
    assert ProposedAs(k, digest, d, t);
    ConsentBackedStays(h, k, digest, c.parties.first.cluster, c.consents.first);
    ConsentBackedStays(h, k, digest, c.parties.second.cluster, c.consents.second);
  }

  lemma KeptContractsBacked(r: Registry, s: Registry, h: History, k: History, digest: Terms -> Digest)
    requires ContractsBacked(r, h, digest) && ContractsKept(r.contracts, s.contracts) && Extends(h, k)
    ensures ContractsBacked(s, k, digest)
  {
    forall c | c in s.contracts ensures s.contracts[c].id == c && ContractBacked(k, digest, s.contracts[c]) {
      assert ContractKept(r.contracts[c], s.contracts[c]);
      ContractBackedStays(h, k, digest, r.contracts[c], s.contracts[c]);
    }
  }

  // ---- messages ----

  /** The agent process at the other end of a connection. */
  datatype Peer = Peer(cluster: Name, incarnation: Uuid)

  predicate Activated(h: History, p: Peer, g: Uuid, attempt: Uuid) {
    Activation(p.cluster, p.incarnation, g, attempt) in h.activations
  }

  /** A message its sender was entitled to send. */
  ghost predicate Honest(h: History, digest: Terms -> Digest, p: Peer, m: Message) {
    match m
    case HelloMessage(hello) => hello.cluster == p.cluster && hello.incarnation == p.incarnation
    case CommittedMessage(_, g, attempt, installed) => installed ==> Activated(h, p, g, attempt)
    case StatusMessage(_, entries) =>
      forall i | 0 <= i < |entries| :: Enforcing(entries[i].state) ==>
        Activated(h, p, entries[i].grant, entries[i].attempt)
    case ConsentMessage(_, n) =>
      n.decision == ConsentAccepted ==>
        exists t :: AcceptedTerms(h, digest, p.cluster, n.termsDigest,
                                  Binding(n.incarnation, n.generation, n.policyGeneration), t)
    case _ => true
  }

  lemma HonestStays(h: History, k: History, digest: Terms -> Digest, p: Peer, m: Message)
    requires Honest(h, digest, p, m) && Extends(h, k)
    ensures Honest(k, digest, p, m)
  {
    if m.ConsentMessage? && m.notice.decision == ConsentAccepted {
      var n := m.notice;
      var b := Binding(n.incarnation, n.generation, n.policyGeneration);
      var t :| AcceptedTerms(h, digest, p.cluster, n.termsDigest, b, t);
      assert AcceptedTerms(k, digest, p.cluster, n.termsDigest, b, t);
    }
  }

  // ---- handlers that record evidence ----

  lemma AcknowledgeKeepsBacked(r: Registry, incarnation: Uuid, h: History, g: Uuid, side: Side)
    requires GrantsBacked(r, incarnation, h) && g in r.grants && r.grants[g].contract in r.contracts
    requires Activation(r.contracts[r.grants[g].contract].parties.At(side).cluster,
                        r.grants[g].bindings.At(side).incarnation, g, r.grants[g].attempt) in h.activations
    ensures GrantsBacked(WithGrant(r, g, Acknowledge(r.grants[g], side)), incarnation, h)
  {
    var s := WithGrant(r, g, Acknowledge(r.grants[g], side));
    forall x | x in s.grants ensures GrantBacked(s, incarnation, h, x) {
      assert GrantBacked(r, incarnation, h, x);
    }
  }

  predicate SessionFits(s: Coord, conn: nat, p: Peer) {
    conn in s.sessions ==> s.sessions[conn].cluster == p.cluster && s.sessions[conn].incarnation == p.incarnation
  }

  lemma ReplyIsFromParty(s: Coord, conn: nat, token: Uuid, g: Uuid, attempt: Uuid, p: Peer)
    requires SessionFits(s, conn, p) && ReplySide(s, conn, token, g, attempt).Some?
    ensures var side := ReplySide(s, conn, token, g, attempt).value;
            && g in s.reg.grants && s.reg.grants[g].contract in s.reg.contracts && attempt == s.reg.grants[g].attempt
            && s.reg.contracts[s.reg.grants[g].contract].parties.At(side).cluster == p.cluster
            && s.reg.grants[g].bindings.At(side).incarnation == p.incarnation
  {
  }

  lemma CommittedKeepsBacked(
      s: Coord, conn: nat, token: Uuid, g: Uuid, attempt: Uuid, installed: bool, ids: Two<Uuid>, now: Time,
      h: History, p: Peer)
    requires GrantsBacked(s.reg, s.incarnation, h) && SessionFits(s, conn, p)
    requires installed ==> Activated(h, p, g, attempt)
    ensures var t := OnCommitted(s, conn, token, g, attempt, installed, ids, now);
            && GrantsBacked(t.reg, s.incarnation, h) && ContractsKept(s.reg.contracts, t.reg.contracts)
            && ClustersAdvance(s.reg.clusters, t.reg.clusters)
  {
    TameReflexive(s.reg);
    AbortIsTame(s, g);
    TameKeepsGrants(s.reg, Abort(s, g).reg, s.incarnation, h, h);
    if ReplySide(s, conn, token, g, attempt).Some? && installed {
      var side := ReplySide(s, conn, token, g, attempt).value;
      ReplyIsFromParty(s, conn, token, g, attempt, p);
      AcknowledgeKeepsBacked(s.reg, s.incarnation, h, g, side);
      var s' := s.(reg := WithGrant(s.reg, g, Acknowledge(s.reg.grants[g], side)));
      FinaliseIsTame(s', g, ids, now);
      TameKeepsGrants(s'.reg, Finalise(s', g, ids, now).coord.reg, s.incarnation, h, h);
    }
  }

  lemma AssessedBacked(s: Coord, conn: nat, entries: seq<StatusEntry>, h: History, p: Peer, g: Uuid)
    requires GrantsBacked(s.reg, s.incarnation, h) && conn in s.sessions && SessionFits(s, conn, p) && g in s.reg.grants
    requires forall i | 0 <= i < |entries| :: Enforcing(entries[i].state) ==>
             Activated(h, p, entries[i].grant, entries[i].attempt)
    ensures GrantBacked(s.reg.(grants := AssessAll(s.reg, s.sessions[conn], entries)), s.incarnation, h, g)
  {
    assert GrantBacked(s.reg, s.incarnation, h, g);
    var a := Assess(s.reg, s.sessions[conn], entries, s.reg.grants[g]);
    var assessed := s.reg.(grants := AssessAll(s.reg, s.sessions[conn], entries));
    assert assessed.grants[g] == Assessed(s.reg.grants[g], a);
    if a.Acknowledged? {
      var e := Reported(entries, g).value;
      assert Activated(h, p, g, e.attempt);
    }
  }

  lemma StatusKeepsBacked(
      s: Coord, conn: nat, token: Uuid, entries: seq<StatusEntry>, plan: seq<FenceAction>, work: seq<(Uuid, Two<Uuid>)>,
      now: Time, h: History, p: Peer)
    requires GrantsBacked(s.reg, s.incarnation, h) && SessionFits(s, conn, p)
    requires forall i | 0 <= i < |entries| :: Enforcing(entries[i].state) ==>
             Activated(h, p, entries[i].grant, entries[i].attempt)
    ensures var t := OnStatusReport(s, conn, token, entries, plan, work, now);
            && GrantsBacked(t.reg, s.incarnation, h) && ContractsKept(s.reg.contracts, t.reg.contracts)
            && ClustersAdvance(s.reg.clusters, t.reg.clusters)
  {
    if Authentic(s, conn, token) {
      var assessed := s.reg.(grants := AssessAll(s.reg, s.sessions[conn], entries));
      forall g | g in assessed.grants ensures GrantBacked(assessed, s.incarnation, h, g) {
        AssessedBacked(s, conn, entries, h, p, g);
      }
      StatusTail(s.(reg := assessed), plan, work, now);
      TameKeepsGrants(assessed, OnStatusReport(s, conn, token, entries, plan, work, now).reg, s.incarnation, h, h);
    }
  }

  lemma StatusTail(s: Coord, plan: seq<FenceAction>, work: seq<(Uuid, Two<Uuid>)>, now: Time)
    ensures var fenced := ApplyPlan(s.reg, GrantRevocation, plan, now).reg;
            Tame(s.reg, fenced) && Tame(s.reg, FinaliseAll(s.(reg := fenced), work, now).reg)
  {
    var fenced := ApplyPlan(s.reg, GrantRevocation, plan, now).reg;
    PlanIsTame(s.reg, GrantRevocation, plan, now);
    FinaliseAllIsTame(s.(reg := fenced), work, now);
    TameTransitive(s.reg, fenced, FinaliseAll(s.(reg := fenced), work, now).reg);
  }

  lemma ConsentKeepsBacked(
      s: Coord, conn: nat, token: Uuid, n: ConsentNotice, now: Time, h: History, digest: Terms -> Digest, p: Peer)
    requires ContractsBacked(s.reg, h, digest) && SessionFits(s, conn, p)
    requires Honest(h, digest, p, ConsentMessage(token, n))
    ensures var t := OnConsent(s, conn, token, n, now);
            ContractsBacked(t.reg, h, digest) && t.reg == s.reg.(contracts := t.reg.contracts)
  {
    var t := OnConsent(s, conn, token, n, now);
    if t != s {
      var side := s.reg.contracts[n.contract].SideOf(s.sessions[conn].cluster).value;
      var k := ConsentOf(s.sessions[conn].cluster, n, token, now);
      RecordedBacked(s.reg.contracts[n.contract], side, k, now, h, digest);
    }
  }

  lemma RecordedBacked(c: Contract, side: Side, k: Consent, now: Time, h: History, digest: Terms -> Digest)
    requires ContractBacked(h, digest, c) && ConsentBacked(h, digest, c.parties.At(side).cluster, Some(k))
    ensures ContractBacked(h, digest, Record(c, side, k, now)) && Record(c, side, k, now).id == c.id
  {
    var t :| ProposedAs(h, digest, c, t);
    assert ProposedAs(h, digest, Record(c, side, k, now), t);
  }

  // ---- new records ----

  lemma FreshGrantBacked(r: Registry, incarnation: Uuid, h: History, g: Uuid, n: Grant)
    requires GrantsBacked(r, incarnation, h) && n.id == g
    requires n.acknowledged == Two(false, false) || n.contract !in r.contracts
    ensures GrantsBacked(WithGrant(r, g, n), incarnation, h)
  {
    var s := WithGrant(r, g, n);
    forall x | x in s.grants ensures GrantBacked(s, incarnation, h, x) {
      if x != g { assert GrantBacked(r, incarnation, h, x); }
    }
  }

  lemma IssueKeepsBacked(s: Coord, c: Uuid, capacity: nat, id: Uuid, attempt: Uuid, now: Time, h: History)
    requires GrantsBacked(s.reg, s.incarnation, h)
    ensures var t := Issue(s, c, capacity, id, attempt, now);
            GrantsBacked(t.reg, s.incarnation, h) && t.reg.contracts == s.reg.contracts
  {
    IssueRecords(s, c, capacity, id, attempt, now);
    if Issue(s, c, capacity, id, attempt, now) != s {
      FreshGrantBacked(s.reg, s.incarnation, h, id, NewGrant(s, id, attempt, c, capacity, now));
    }
  }

  lemma RevalidateKeepsBacked(s: Coord, g: Uuid, attempt: Uuid, now: Time, h: History)
    requires GrantsBacked(s.reg, s.incarnation, h)
    ensures var t := Revalidate(s, g, attempt, now);
            GrantsBacked(t.reg, s.incarnation, h) && t.reg.contracts == s.reg.contracts
  {
    RevalidateRecords(s, g, attempt, now);
    if g in s.reg.grants {
      assert GrantBacked(s.reg, s.incarnation, h, g);
      FreshGrantBacked(s.reg, s.incarnation, h, g, Renewed(s, s.reg.grants[g], attempt, now));
    }
  }

  /** No grant refers to the identity yet. */
  predicate UnusedContract(r: Registry, id: Uuid) {
    id !in r.contracts && forall g <- r.grants :: r.grants[g].contract != id
  }

  function ProposalsOf(s: Coord, p: Proposal, now: Time): set<Terms> {
    if p.clusters.first in s.reg.clusters && p.clusters.second in s.reg.clusters then {ProposedTerms(s, p, now)} else {}
  }

  lemma ProposeKeepsBacked(s: Coord, p: Proposal, id: Uuid, digest: Terms -> Digest, now: Time, h: History, k: History)
    requires GrantsBacked(s.reg, s.incarnation, h) && ContractsBacked(s.reg, h, digest) && UnusedContract(s.reg, id)
    requires Extends(h, k) && ProposalsOf(s, p, now) <= k.proposals
    ensures var t := Propose(s, p, id, digest, now);
            && GrantsBacked(t.reg, s.incarnation, k) && ContractsBacked(t.reg, k, digest)
            && t.reg == s.reg.(contracts := t.reg.contracts)
  {
    var t := Propose(s, p, id, digest, now);
    TameReflexive(s.reg);
    TameKeepsGrants(s.reg, s.reg, s.incarnation, h, k);
    KeptContractsBacked(s.reg, s.reg, h, k, digest);
    if t != s {
      var terms := ProposedTerms(s, p, now);
      var c := ContractOf(id, terms, digest(terms), now);
      assert t.reg == WithContract(s.reg, id, c);
      assert ProposedAs(k, digest, c, terms);
      forall g | g in t.reg.grants ensures GrantBacked(t.reg, s.incarnation, k, g) {
        assert GrantBacked(s.reg, s.incarnation, k, g);
      }
    }
  }
}
