/** What each handler of the coordinator does, told by the fields of messages and records: which messages it
    takes, what it stores for them, and what it leaves alone (src/runtime/coordinator.cpp). */
module HandlerEffects {
  import opened Model
  import opened Engine
  import opened Fencing
  import opened FenceEffects
  import opened FenceReach
  import opened Planning
  import opened Coordination
  import opened Effects
  import opened Frames

  // ---- the clock ----

  /** Adding a duration stops at the ends of the 64-bit range. */
  lemma LaterClamps(t: Time, d: int)
    requires -0x8000_0000_0000_0000 <= t <= 0x7FFF_FFFF_FFFF_FFFF
    ensures -0x8000_0000_0000_0000 <= Later(t, d) <= 0x7FFF_FFFF_FFFF_FFFF
    ensures -0x8000_0000_0000_0000 <= t + d <= 0x7FFF_FFFF_FFFF_FFFF ==> Later(t, d) == t + d
    ensures t + d > 0x7FFF_FFFF_FFFF_FFFF ==> Later(t, d) == 0x7FFF_FFFF_FFFF_FFFF
    ensures t + d < -0x8000_0000_0000_0000 ==> Later(t, d) == -0x8000_0000_0000_0000
  {
  }

  // ---- connections ----

  predicate Waiting(g: Grant) { g.state in {Preparing, Prepared} }

  /** The contract of the grant is on record and names the cluster. */
  predicate Touches(r: Registry, g: Grant, cluster: Name) {
    && g.contract in r.contracts
    && (r.contracts[g.contract].parties.first.cluster == cluster
        || r.contracts[g.contract].parties.second.cluster == cluster)
  }

  predicate Forgets(f: Flow, h: Flow, conn: nat) {
    && h == f.(targets := h.targets)
    && h.targets.first == (if f.targets.first == Some(conn) then None else f.targets.first)
    && h.targets.second == (if f.targets.second == Some(conn) then None else f.targets.second)
  }

  /** A lost connection takes its session along, leaves its flows without that target, and makes indeterminate
      exactly the grants of its cluster that were being prepared or committed. */
  lemma DisconnectEffect(s: Coord, conn: nat)
    requires conn in s.sessions
    ensures var t := HandleDisconnect(s, conn);
            && t.sessions == s.sessions - {conn} && t.pending.Keys == s.pending.Keys
            && (forall g <- s.pending :: Forgets(s.pending[g], t.pending[g], conn))
            && t.reg == s.reg.(grants := t.reg.grants) && t.reg.grants.Keys == s.reg.grants.Keys
            && forall g <- s.reg.grants ::
                 t.reg.grants[g]
                 == if Waiting(s.reg.grants[g]) && Touches(s.reg, s.reg.grants[g], s.sessions[conn].cluster)
                    then s.reg.grants[g].(state := GrantIndeterminate) else s.reg.grants[g]
  {
  }

  // ---- handshakes ----

  /** The trail takes the lines of the plan and the closing one. */
  predicate FenceFits(r: Registry, plan: seq<FenceAction>) {
    |r.audit| + |FenceReach.Lines(r, plan)| < 65536
  }

  /** Who is let in: a new cluster where registration is open and there is room; a known one of the same domain
      with a generation not behind the record, which must be ahead of it for a new incarnation, and otherwise a
      policy generation not behind it. */
  predicate Admissible(s: Coord, h: Hello) {
    && h.cluster != [] && h.domain != []
    && if h.cluster !in s.reg.clusters then s.config.allowRegistration && |s.reg.clusters| < 1024
       else
         var c := s.reg.clusters[h.cluster];
         && h.domain == c.domain
         && if h.incarnation == c.incarnation
            then h.generation >= c.generation && h.policyGeneration >= c.policyGeneration
            else h.generation > c.generation
  }

  /** The record an admitted handshake leaves, before any fence. */
  function Greeted(s: Coord, h: Hello): Cluster
    requires Admissible(s, h)
  {
    if h.cluster !in s.reg.clusters then Registered(h)
    else
      var c := s.reg.clusters[h.cluster];
      if h.incarnation == c.incarnation then c.(policyGeneration := h.policyGeneration)
      else c.(incarnation := h.incarnation, generation := h.generation, contentDigest := h.contentDigest,
              generationConflict := false)
  }

  /** A known cluster comes with a new incarnation or a greater policy generation. */
  predicate MustFence(s: Coord, h: Hello)
    requires Admissible(s, h)
  {
    h.cluster in s.reg.clusters
    && (h.incarnation != s.reg.clusters[h.cluster].incarnation
        || h.policyGeneration != s.reg.clusters[h.cluster].policyGeneration)
  }

  /** A new cluster starts unknown, with the hello's incarnation and generations and no endpoints. */
  lemma RegistersAsToldBy(h: Hello)
    ensures var c := Registered(h);
            && c.id == h.cluster && c.domain == h.domain && c.incarnation == h.incarnation
            && c.generation == h.generation && c.policyGeneration == h.policyGeneration
            && c.contentDigest == h.contentDigest && c.state == ClusterUnknown && c.endpoints == map[]
            && !c.consentWithdrawn && !c.generationConflict
  {
  }

  /** A session is opened exactly for an admissible handshake whose fence, if it needs one, is complete; it
      carries what the hello said.  Nothing happens otherwise, except that a fence may have stopped midway. */
  lemma HelloEffect(s: Coord, conn: nat, h: Hello, token: Uuid, plan: seq<FenceAction>, now: Time)
    ensures var t := OnHello(s, conn, h, token, plan, now);
            if !Admissible(s, h) then t == s
            else
              var changed := WithCluster(s.reg, h.cluster, Greeted(s, h));
              var fenced := MustFence(s, h);
              && t.reg == (if fenced then FenceCluster(changed,
                                                       if h.incarnation != s.reg.clusters[h.cluster].incarnation
                                                       then ClusterReincarnation else PolicyGenerationChange,
                                                       plan, now).reg else changed)
              && t.sessions == (if !fenced || FenceFits(changed, plan)
                                then s.sessions[conn := Session(h.cluster, h.incarnation, h.generation,
                                                                h.policyGeneration, token, now)]
                                else s.sessions)
              && t == s.(reg := t.reg, sessions := t.sessions)
  {
    if Admissible(s, h) {
      var changed := WithCluster(s.reg, h.cluster, Greeted(s, h));
      FenceClusterEnds(changed, ClusterReincarnation, plan, now);
      FenceClusterEnds(changed, PolicyGenerationChange, plan, now);
      if h.cluster in s.reg.clusters && !MustFence(s, h) {
        assert s.reg.clusters[h.cluster := s.reg.clusters[h.cluster]] == s.reg.clusters;
      }
    }
  }

  // ---- reports ----

  /** The session of the cluster the record is about, in the recorded incarnation and not behind its generation. */
  predicate Reportable(s: Coord, conn: nat, token: Uuid, record: Cluster) {
    && conn in s.sessions && s.sessions[conn].token == token && s.sessions[conn].cluster == record.id
    && record.id in s.reg.clusters && record.incarnation == s.reg.clusters[record.id].incarnation
    && record.generation >= s.reg.clusters[record.id].generation
  }

  /** Another content for the recorded generation, with no newer policy to explain it. */
  predicate Contradicts(c: Cluster, record: Cluster) {
    && record.generation == c.generation && record.policyGeneration <= c.policyGeneration
    && record.contentDigest != c.contentDigest && record.contentDigest != 0 && c.contentDigest != 0
  }

  /** The record can be stored. */
  predicate Storable(c: Cluster, record: Cluster) {
    && record.id != [] && c.domain != [] && |record.endpoints| <= 4096
    && forall e <- record.endpoints ::
         record.endpoints[e].cluster == record.id && record.endpoints[e].reserved <= record.endpoints[e].capacity
  }

  /** A contradicting report marks the conflict and fences; one that is not behind in its policy replaces the
      record, but for the domain, and fences when the policy moved; any other changes nothing. */
  lemma ReportEffect(s: Coord, conn: nat, token: Uuid, record: Cluster, plan: seq<FenceAction>, now: Time)
    ensures var t := OnReport(s, conn, token, record, plan, now);
            if !Reportable(s, conn, token, record) then t == s
            else
              var c, session := s.reg.clusters[record.id], s.sessions[conn];
              if Contradicts(c, record) then
                var marked := WithCluster(s.reg, record.id, c.(generationConflict := true));
                t == s.(reg := FenceCluster(marked, Manual, plan, now).reg,
                        sessions := s.sessions[conn := session.(generation := record.generation)])
              else if record.policyGeneration < c.policyGeneration || !Storable(c, record) then t == s
              else
                var stored := WithCluster(s.reg, record.id, record.(domain := c.domain, generationConflict := false));
                && t.reg == (if record.policyGeneration > c.policyGeneration
                             then FenceCluster(stored, PolicyGenerationChange, plan, now).reg else stored)
                && t == s.(reg := t.reg, sessions := s.sessions[conn := session.(generation := record.generation,
                                                                                 policyGeneration :=
                                                                                   record.policyGeneration)])
  {
    if Reportable(s, conn, token, record) { StorableExactly(s.reg, s.reg.clusters[record.id], record); }
  }

  lemma StorableExactly(r: Registry, c: Cluster, record: Cluster)
    requires record.id in r.clusters
    ensures PutCluster(r, Accepted(c, record)).Success? <==> Storable(c, record)
    ensures Storable(c, record) ==>
              PutCluster(r, Accepted(c, record))
              == Success(WithCluster(r, record.id, record.(domain := c.domain, generationConflict := false)))
  {
  }

  // ---- consent ----

  /** The slot of a contract that names the cluster, the first if both do. */
  predicate Speaks(parties: Two<Party>, cluster: Name, side: Side) {
    if side == First then parties.first.cluster == cluster
    else parties.first.cluster != cluster && parties.second.cluster == cluster
  }

  /** The session speaks for that side and the notice is about the contract's terms and endpoint, under the
      session's incarnation and generation. */
  predicate Consenting(s: Coord, conn: nat, token: Uuid, m: ConsentNotice, side: Side) {
    && conn in s.sessions && s.sessions[conn].token == token && m.contract in s.reg.contracts
    && var c, session := s.reg.contracts[m.contract], s.sessions[conn];
    && Speaks(c.parties, session.cluster, side) && m.termsDigest == c.termsDigest
    && m.endpoint == c.parties.At(side).endpoint
    && m.incarnation == session.incarnation && m.generation == session.generation
  }

  /** The same decision about the same terms in the same generation is already on record. */
  predicate OnRecord(k: Option<Consent>, m: ConsentNotice) {
    && k.Some? && k.value.decision == m.decision && k.value.termsDigest == m.termsDigest
    && k.value.generation == m.generation
  }

  /** What the notice says, as a record of this session. */
  predicate RecordOf(k: Consent, cluster: Name, m: ConsentNotice) {
    && k.cluster == cluster && k.endpoint == m.endpoint && k.incarnation == m.incarnation
    && k.generation == m.generation && k.policyGeneration == m.policyGeneration && k.agentTerm == m.agentTerm
    && k.termsDigest == m.termsDigest && k.decision == m.decision
  }

  predicate AcceptedBy(k: Option<Consent>) { k.Some? && k.value.decision == ConsentAccepted }

  /** Which side the notice speaks for, if any, and that a new one is recorded there and nowhere else. */
  lemma ConsentEffect(s: Coord, conn: nat, token: Uuid, m: ConsentNotice, now: Time, side: Side)
    requires Consenting(s, conn, token, m, side)
    ensures var t, c := OnConsent(s, conn, token, m, now), s.reg.contracts[m.contract];
            var other := if side == First then Second else First;
            if OnRecord(c.consents.At(side), m) then t == s
            else
              && m.contract in t.reg.contracts
              && t == s.(reg := WithContract(s.reg, m.contract, t.reg.contracts[m.contract]))
              && var d := t.reg.contracts[m.contract];
              && d == c.(consents := d.consents, updatedAt := now, state := d.state)
              && d.consents.At(side).Some? && RecordOf(d.consents.At(side).value, s.sessions[conn].cluster, m)
              && d.consents.At(other) == c.consents.At(other)
              && d.state == (if m.decision == ConsentRefused then ContractRefused
                             else if AcceptedBy(c.consents.At(other)) then Consented else AwaitingConsent)
  {
  }

  lemma ConsentIgnored(s: Coord, conn: nat, token: Uuid, m: ConsentNotice, now: Time)
    requires !Consenting(s, conn, token, m, First) && !Consenting(s, conn, token, m, Second)
    ensures OnConsent(s, conn, token, m, now) == s
  {
  }

  // ---- contracts and grants ----

  predicate BindsCluster(b: Binding, c: Cluster) {
    b.incarnation == c.incarnation && b.generation == c.generation && b.policy == c.policyGeneration
  }

  /** The terms of a proposal: its clusters as they are recorded now, its endpoints, and a unit of capacity and
      the configured lease where it names none. */
  predicate TermsOf(s: Coord, p: Proposal, t: Terms, now: Time)
    requires p.clusters.first in s.reg.clusters && p.clusters.second in s.reg.clusters
  {
    var a, b := s.reg.clusters[p.clusters.first], s.reg.clusters[p.clusters.second];
    && t.parties == Two(Party(p.clusters.first, p.endpoints.first, a.domain),
                        Party(p.clusters.second, p.endpoints.second, b.domain))
    && BindsCluster(t.bindings.first, a) && BindsCluster(t.bindings.second, b) && t.proposedAt == now
    && t.capacity == (if p.capacity > 0 then p.capacity else 1)
    && t.leaseDuration == (if p.lease != 0 then p.lease else s.config.defaultLease)
  }

  /** Both clusters are known, the terms are valid, and there is a place for the contract. */
  predicate Proposable(s: Coord, p: Proposal, id: Uuid, now: Time) {
    && p.clusters.first in s.reg.clusters && p.clusters.second in s.reg.clusters && id != 0
    && (id in s.reg.contracts || |s.reg.contracts| < 65536) && ProposedTerms(s, p, now).Validate() == Ok
  }

  /** A proposal is recorded, under its digest and with no consent, exactly then; nothing else changes. */
  lemma ProposeEffect(s: Coord, p: Proposal, id: Uuid, digest: Terms -> Digest, now: Time)
    ensures var t := Propose(s, p, id, digest, now);
            if !Proposable(s, p, id, now) then t == s
            else
              && id in t.reg.contracts && t == s.(reg := WithContract(s.reg, id, t.reg.contracts[id]))
              && var terms, c := ProposedTerms(s, p, now), t.reg.contracts[id];
              && TermsOf(s, p, terms, now) && c.id == id && c.parties == terms.parties && c.capacity == terms.capacity
              && c.leaseDuration == terms.leaseDuration && c.termsDigest == digest(terms) && c.updatedAt == now
              && c.state == Proposed && c.consents == Two(None, None)
  {
  }

  /** A grant may be issued over the contract: both sides consented, no more than its capacity, between clusters
      on record, and there is a place for it. */
  predicate Issuable(s: Coord, c: Uuid, capacity: nat, id: Uuid) {
    && c in s.reg.contracts && s.reg.contracts[c].state in {Consented, ContractActive}
    && capacity <= s.reg.contracts[c].capacity && s.reg.contracts[c].parties.first.cluster in s.reg.clusters
    && s.reg.contracts[c].parties.second.cluster in s.reg.clusters
    && c != 0 && id != 0 && (id in s.reg.grants || |s.reg.grants| < 131072)
    && (if capacity > 0 then capacity else s.reg.contracts[c].capacity) <= 0x1_0000_0000_0000
  }

  /** A new grant: of this coordinator's term, for the contract's terms, bound to both clusters as they are
      recorded now, with the contract's lease ahead of it and no acknowledgement. */
  predicate NewlyIssued(s: Coord, c: Contract, capacity: nat, id: Uuid, attempt: Uuid, g: Grant, now: Time)
    requires c.parties.first.cluster in s.reg.clusters && c.parties.second.cluster in s.reg.clusters
  {
    && g.id == id && g.termsDigest == c.termsDigest && g.term == s.term && g.coordinator == s.incarnation
    && g.attempt == attempt && g.capacity == (if capacity > 0 then capacity else c.capacity)
    && BindsCluster(g.bindings.first, s.reg.clusters[c.parties.first.cluster])
    && BindsCluster(g.bindings.second, s.reg.clusters[c.parties.second.cluster])
    && g.issuedAt == now && g.validUntil == Later(now, c.leaseDuration)
    && g.state == Preparing && g.acknowledged == Two(false, false)
  }

  lemma IssueEffect(s: Coord, c: Uuid, capacity: nat, id: Uuid, attempt: Uuid, now: Time)
    ensures var t := Issue(s, c, capacity, id, attempt, now);
            if !Issuable(s, c, capacity, id) then t == s
            else
              && id in t.reg.grants && t == s.(reg := WithGrant(s.reg, id, t.reg.grants[id]), pending := t.pending)
              && t.reg.grants[id].contract == c
              && NewlyIssued(s, s.reg.contracts[c], capacity, id, attempt, t.reg.grants[id], now)
  {
    IssueRecords(s, c, capacity, id, attempt, now);
  }

  /** A renewed grant keeps its identity, contract, bindings and capacity and starts over under a new attempt of
      this coordinator's term, with a new lease; without its contract it only gets the new attempt. */
  lemma RevalidateEffect(s: Coord, g: Uuid, attempt: Uuid, now: Time)
    requires g in s.reg.grants && s.reg.grants[g].state != GrantFenced
    ensures var t, was := Revalidate(s, g, attempt, now), s.reg.grants[g];
            && g in t.reg.grants && t == s.(reg := WithGrant(s.reg, g, t.reg.grants[g]), pending := t.pending)
            && var h := t.reg.grants[g];
            && h.attempt == attempt && h.term == s.term && h.coordinator == s.incarnation && h.issuedAt == now
            && h.id == was.id && h.contract == was.contract && h.bindings == was.bindings
            && h.capacity == was.capacity && h.termsDigest == was.termsDigest
            && if was.contract in s.reg.contracts
               then h.state == Preparing && h.acknowledged == Two(false, false)
                    && h.validUntil == Later(now, s.reg.contracts[was.contract].leaseDuration)
               else h.state == was.state && h.acknowledged == was.acknowledged && h.validUntil == was.validUntil
  {
    RevalidateRecords(s, g, attempt, now);
  }

  // ---- replies ----

  /** The session speaks for that side of the grant, about its attempt, in the incarnation and generation the
      grant is bound to there. */
  predicate Replies(s: Coord, conn: nat, token: Uuid, g: Uuid, attempt: Uuid, side: Side) {
    && conn in s.sessions && s.sessions[conn].token == token
    && g in s.reg.grants && s.reg.grants[g].contract in s.reg.contracts
    && Speaks(s.reg.contracts[s.reg.grants[g].contract].parties, s.sessions[conn].cluster, side)
    && attempt == s.reg.grants[g].attempt
    && s.reg.grants[g].bindings.At(side).incarnation == s.sessions[conn].incarnation
    && s.reg.grants[g].bindings.At(side).generation == s.sessions[conn].generation
  }

  lemma RepliesExactly(s: Coord, conn: nat, token: Uuid, g: Uuid, attempt: Uuid, side: Side)
    ensures ReplySide(s, conn, token, g, attempt) == Some(side) <==> Replies(s, conn, token, g, attempt, side)
  {
  }

  lemma RepliesForNobody(s: Coord, conn: nat, token: Uuid, g: Uuid, attempt: Uuid)
    requires !Replies(s, conn, token, g, attempt, First) && !Replies(s, conn, token, g, attempt, Second)
    ensures ReplySide(s, conn, token, g, attempt) == None
  {
  }

  /** The flow is closed and the grant aborted, unless it was fenced or withdrawn. */
  predicate GivenUp(s: Coord, t: Coord, g: Uuid) {
    && t.pending == s.pending - {g} && t.sessions == s.sessions
    && t.reg == if g in s.reg.grants && s.reg.grants[g].state !in {GrantFenced, GrantWithdrawn}
                then WithGrant(s.reg, g, s.reg.grants[g].(state := Aborted)) else s.reg
  }

  /** A prepare reply counts while the grant is being prepared: a refusal gives the grant up; an acceptance is
      noted in its flow, and with both the grant is prepared, or indeterminate when an agent has been lost. */
  lemma PreparedEffect(s: Coord, conn: nat, token: Uuid, g: Uuid, attempt: Uuid, accepted: bool, side: Side)
    requires Replies(s, conn, token, g, attempt, side)
    ensures var t := OnPrepared(s, conn, token, g, attempt, accepted);
            if !Waiting(s.reg.grants[g]) then t == s
            else if !accepted then GivenUp(s, t, g)
            else if g !in s.pending then t == s
            else
              var f := s.pending[g];
              var both := if side == First then f.prepared.second else f.prepared.first;
              && t.sessions == s.sessions
              && t.pending == s.pending[g := f.(prepared := if side == First then Two(true, f.prepared.second)
                                                            else Two(f.prepared.first, true))]
              && t.reg == if !both then s.reg
                          else WithGrant(s.reg, g, s.reg.grants[g].(
                                 state := if f.targets.first.Some? && f.targets.second.Some? then Prepared
                                          else GrantIndeterminate))
  {
    RepliesExactly(s, conn, token, g, attempt, side);
  }

  lemma PreparedIgnored(s: Coord, conn: nat, token: Uuid, g: Uuid, attempt: Uuid, accepted: bool)
    requires !Replies(s, conn, token, g, attempt, First) && !Replies(s, conn, token, g, attempt, Second)
    ensures OnPrepared(s, conn, token, g, attempt, accepted) == s
  {
    RepliesForNobody(s, conn, token, g, attempt);
  }

  /** A commit reply of one who may not answer is ignored, and a failed installation gives the grant up. */
  lemma CommittedEffect(
      s: Coord, conn: nat, token: Uuid, g: Uuid, attempt: Uuid, installed: bool, ids: Two<Uuid>, now: Time)
    ensures var t := OnCommitted(s, conn, token, g, attempt, installed, ids, now);
            && (!Replies(s, conn, token, g, attempt, First) && !Replies(s, conn, token, g, attempt, Second) ==> t == s)
            && (Replies(s, conn, token, g, attempt, First) || Replies(s, conn, token, g, attempt, Second) ==>
                  (!installed ==> GivenUp(s, t, g)))
  {
    if Replies(s, conn, token, g, attempt, First) {
      RepliesExactly(s, conn, token, g, attempt, First);
    } else if Replies(s, conn, token, g, attempt, Second) {
      RepliesExactly(s, conn, token, g, attempt, Second);
    } else {
      RepliesForNobody(s, conn, token, g, attempt);
    }
  }

  /** Any session may abort any grant. */
  lemma AbortedEffect(s: Coord, conn: nat, token: Uuid, g: Uuid)
    ensures var t := OnAborted(s, conn, token, g);
            if conn in s.sessions && s.sessions[conn].token == token then GivenUp(s, t, g) else t == s
  {
  }

  // ---- status reports ----

  /** The first entry about the grant says that the agent enforces it under this attempt. */
  predicate Enforces(entries: seq<StatusEntry>, g: Uuid, attempt: Uuid) {
    exists i | 0 <= i < |entries| ::
      && entries[i].grant == g && entries[i].attempt == attempt && entries[i].state in {Committed, GrantActive}
      && forall j | 0 <= j < i :: entries[j].grant != g
  }

  /** The first entry about the grant says that the agent enforces it, under whatever attempt. */
  predicate EnforcesSome(entries: seq<StatusEntry>, g: Uuid) {
    exists i | 0 <= i < |entries| ::
      && entries[i].grant == g && entries[i].state in {Committed, GrantActive}
      && forall j | 0 <= j < i :: entries[j].grant != g
  }

  lemma {:induction false} ReportedFirst(entries: seq<StatusEntry>, g: Uuid)
    ensures Reported(entries, g).None? ==> forall i | 0 <= i < |entries| :: entries[i].grant != g
    ensures Reported(entries, g).Some? ==>
              exists i | 0 <= i < |entries| ::
                entries[i] == Reported(entries, g).value && forall j | 0 <= j < i :: entries[j].grant != g
    decreases |entries|
  {
    if entries != [] {
      if entries[0].grant == g {
        assert entries[0] == Reported(entries, g).value;
      } else {
        ReportedFirst(entries[1..], g);
        assert forall i | 0 < i < |entries| :: entries[i] == entries[1..][i - 1];
        if Reported(entries, g).Some? {
          var i :| 0 <= i < |entries[1..]| && entries[1..][i] == Reported(entries, g).value
                   && forall j | 0 <= j < i :: entries[1..][j].grant != g;
          assert entries[i + 1] == Reported(entries, g).value;
          assert forall j | 0 <= j < i + 1 :: entries[j].grant != g;
        }
      }
    }
  }

  lemma EnforcesExactly(entries: seq<StatusEntry>, g: Uuid)
    ensures EnforcesSome(entries, g) <==> Reported(entries, g).Some? && Enforcing(Reported(entries, g).value.state)
    ensures forall attempt :: Enforces(entries, g, attempt) <==>
              && Reported(entries, g).Some? && Enforcing(Reported(entries, g).value.state)
              && Reported(entries, g).value.attempt == attempt
  {
    ReportedFirst(entries, g);
  }

  /** What a report means for a grant of the reporting cluster: it is acknowledged exactly when the agent enforces
      its attempt and the grant is bound to the session's incarnation and generation; it must be withdrawn when
      the agent enforces it otherwise, or when it counts as usable and the agent does not enforce it. */
  lemma AssessEffect(r: Registry, session: Session, entries: seq<StatusEntry>, g: Grant, side: Side)
    requires g.contract in r.contracts && Speaks(r.contracts[g.contract].parties, session.cluster, side)
    ensures var a := Assess(r, session, entries, g);
            var bound := g.bindings.At(side).incarnation == session.incarnation
                         && g.bindings.At(side).generation == session.generation;
            && (a == Acknowledged(side) <==> Enforces(entries, g.id, g.attempt) && bound)
            && (a == Coordination.MustFence <==>
                  EnforcesSome(entries, g.id) && !(Enforces(entries, g.id, g.attempt) && bound))
            && (a == Lost <==> !EnforcesSome(entries, g.id) && g.state in {Committed, GrantActive})
  {
    EnforcesExactly(entries, g.id);
  }

  lemma AssessOthers(r: Registry, session: Session, entries: seq<StatusEntry>, g: Grant)
    requires g.contract in r.contracts ==>
               !Speaks(r.contracts[g.contract].parties, session.cluster, First)
               && !Speaks(r.contracts[g.contract].parties, session.cluster, Second)
    ensures Assess(r, session, entries, g) == Untouched
  {
  }

  /** The session's side of the grant, when its contract is on record and names the session's cluster. */
  predicate Concerns(r: Registry, session: Session, g: Grant, side: Side) {
    g.contract in r.contracts && Speaks(r.contracts[g.contract].parties, session.cluster, side)
  }

  /** What a report changes about a grant before anything is fenced: an acknowledgement is noted on its side, and a
      grant that is not enforced although it counts as usable becomes indeterminate. */
  lemma AssessedEffect(r: Registry, session: Session, entries: seq<StatusEntry>, g: Uuid, side: Side)
    requires g in r.grants && Concerns(r, session, r.grants[g], side)
    ensures var was, now := r.grants[g], AssessAll(r, session, entries)[g];
            var enforced := Enforces(entries, was.id, was.attempt)
                            && was.bindings.At(side).incarnation == session.incarnation
                            && was.bindings.At(side).generation == session.generation;
            var lost := !EnforcesSome(entries, was.id) && was.state in {Committed, GrantActive};
            && now.acknowledged.At(side) == (was.acknowledged.At(side) || enforced)
            && now == was.(state := if lost then GrantIndeterminate else was.state, acknowledged := now.acknowledged)
            && now.acknowledged.At(if side == First then Second else First)
               == was.acknowledged.At(if side == First then Second else First)
            && (g in ToFence(r, session, entries) <==> lost || (EnforcesSome(entries, was.id) && !enforced))
  {
    AssessEffect(r, session, entries, r.grants[g], side);
  }

  /** Grants that do not concern the session's cluster are neither changed nor withdrawn. */
  lemma AssessedOthers(r: Registry, session: Session, entries: seq<StatusEntry>, g: Uuid)
    requires g in r.grants && !Concerns(r, session, r.grants[g], First) && !Concerns(r, session, r.grants[g], Second)
    ensures AssessAll(r, session, entries)[g] == r.grants[g] && g !in ToFence(r, session, entries)
  {
    AssessOthers(r, session, entries, r.grants[g]);
  }

  // ---- leases ----

  /** The grants in use whose lease is over. */
  function Overdue(r: Registry, now: Time): set<Uuid> {
    set g | g in r.grants && r.grants[g].state in {Committed, GrantActive} && now > r.grants[g].validUntil
  }

  /** Exactly the overdue grants end as expired, even when their fence plan stops midway. */
  lemma ExpiryEffect(s: Coord, plan: seq<FenceAction>, now: Time, g: Uuid)
    requires IsRevocationPlan(s.reg, Overdue(s.reg, now), plan) && g in s.reg.grants
    ensures var t := ExpireGrants(s, plan, now).reg;
            && g in t.grants
            && t.grants[g] == if g in Overdue(s.reg, now) then s.reg.grants[g].(state := GrantExpired)
               else s.reg.grants[g]
  {
    assert Overdue(s.reg, now) == Expiring(s.reg, now);
    ExpiryIsExact(s, plan, now, g);
  }

  // ---- the operator ----

  /** A withdrawal by the operator is recorded and cuts the cluster off; taking it back only clears the record,
      and gives back nothing that was fenced. */
  lemma ConsentChangeEffect(s: Coord, cluster: Name, plan: seq<FenceAction>, now: Time)
    requires cluster in s.reg.clusters
    ensures var c := s.reg.clusters[cluster];
            && (Effective(WithCluster(s.reg, cluster, c.(consentWithdrawn := true)), cluster, plan) ==>
                  CutOff(ConsentChange(s, cluster, true, plan, now).reg, cluster, c.(consentWithdrawn := true)))
            && ConsentChange(s, cluster, false, plan, now)
               == s.(reg := WithCluster(s.reg, cluster, c.(consentWithdrawn := false)))
  {
    var c := s.reg.clusters[cluster].(consentWithdrawn := true);
    if Effective(WithCluster(s.reg, cluster, c), cluster, plan) {
      FenceCutsOff(s.reg, cluster, c, ClusterWithdrawal, plan, now);
    }
  }

  /** A conflict is resolved exactly by a generation above the recorded one, which cuts the cluster off; anything
      else leaves it as it is. */
  lemma ResolutionEffect(s: Coord, cluster: Name, generation: nat, plan: seq<FenceAction>, now: Time)
    requires cluster in s.reg.clusters
    ensures var c, t := s.reg.clusters[cluster], ResolveConflict(s, cluster, generation, plan, now);
            var resolved := c.(generationConflict := false, generation := generation);
            if c.generationConflict && generation > c.generation
            then Effective(WithCluster(s.reg, cluster, resolved), cluster, plan) ==> CutOff(t.reg, cluster, resolved)
            else t == s
  {
    var resolved := s.reg.clusters[cluster].(generationConflict := false, generation := generation);
    if Effective(WithCluster(s.reg, cluster, resolved), cluster, plan) {
      FenceCutsOff(s.reg, cluster, resolved, Manual, plan, now);
    }
  }

  /** A retired cluster is cut off; any other state is only recorded. */
  lemma StateEffect(s: Coord, cluster: Name, state: ClusterState, plan: seq<FenceAction>, now: Time)
    requires cluster in s.reg.clusters
    ensures var c, t := s.reg.clusters[cluster].(state := state), SetClusterState(s, cluster, state, plan, now);
            if state == ClusterRetired
            then Effective(WithCluster(s.reg, cluster, c), cluster, plan) ==> CutOff(t.reg, cluster, c)
            else t == s.(reg := WithCluster(s.reg, cluster, c))
  {
    var c := s.reg.clusters[cluster].(state := state);
    if Effective(WithCluster(s.reg, cluster, c), cluster, plan) {
      FenceCutsOff(s.reg, cluster, c, Manual, plan, now);
    }
  }

  // ---- capacity ----

  /** There is room for an amount exactly when the endpoint is declared and what it has promised leaves it. */
  lemma RoomExactly(r: Registry, party: Party, amount: nat)
    ensures CanReserve(r, party, amount) <==>
              && party.cluster in r.clusters && party.endpoint in r.clusters[party.cluster].endpoints
              && var e := r.clusters[party.cluster].endpoints[party.endpoint];
              e.reserved + amount <= e.capacity
  {
  }

  /** A reservation without room changes nothing; with room it raises the counter of that endpoint alone, and
      stores its record where there is a place for it. */
  lemma ReserveSideEffect(r: Registry, grant: Uuid, amount: nat, party: Party, id: Uuid, now: Time)
    ensures var s := ReserveSide(r, grant, amount, party, id, now);
            if !CanReserve(r, party, amount) then s == Reserved(r, false)
            else
              var c := r.clusters[party.cluster];
              var e := c.endpoints[party.endpoint];
              && s.ok == (id != 0 && (id in r.reservations || |r.reservations| < 131072))
              && s.reg == r.(clusters := s.reg.clusters, reservations := s.reg.reservations)
              && s.reg.clusters == r.clusters[party.cluster :=
                   c.(endpoints := c.endpoints[party.endpoint := e.(reserved := e.reserved + amount)])]
              && (if s.ok then id in s.reg.reservations
                    && s.reg.reservations == r.reservations[id := s.reg.reservations[id]]
                    && IsRecordOf(s.reg.reservations[id], id, grant, party, amount)
                  else s.reg.reservations == r.reservations)
  {
  }

  predicate IsRecordOf(v: Reservation, id: Uuid, grant: Uuid, party: Party, amount: nat) {
    && v.id == id && v.grant == grant && v.endpoint == party.endpoint && v.cluster == party.cluster
    && v.amount == amount && !v.released
  }

  /** What is released goes back to every cluster that declares the endpoint, to none other, and never takes a
      counter below zero. */
  lemma ReturnEffect(clusters: map<Name, Cluster>, e: Name, amount: nat, c: Name)
    requires c in clusters
    ensures ReturnCapacity(clusters, e, amount).Keys == clusters.Keys
    ensures var was, now := clusters[c], ReturnCapacity(clusters, e, amount)[c];
            if e !in was.endpoints then now == was
            else
              && now == was.(endpoints := was.endpoints[e := now.endpoints[e]])
              && now.endpoints[e] == was.endpoints[e].(reserved := now.endpoints[e].reserved)
              && now.endpoints[e].reserved
                 == (if was.endpoints[e].reserved >= amount then was.endpoints[e].reserved - amount else 0)
  {
  }

  // ---- fences ----

  lemma GrantsFenced(grants: map<Uuid, Grant>, plan: seq<FenceAction>)
    ensures GrantsAfter(grants, plan).Keys == grants.Keys
    ensures forall g <- grants ::
              GrantsAfter(grants, plan)[g]
              == if FenceGrant(g) in plan && grants[g].state !in {Aborted, GrantFenced, GrantWithdrawn}
                 then grants[g].(state := GrantFenced) else grants[g]
  {
  }

  lemma ContractsFenced(contracts: map<Uuid, Contract>, trigger: FenceTrigger, plan: seq<FenceAction>, now: Time)
    ensures ContractsAfter(contracts, trigger, plan, now).Keys == contracts.Keys
    ensures forall c <- contracts ::
              ContractsAfter(contracts, trigger, plan, now)[c]
              == if FenceContract(c) in plan && contracts[c].state !in {ContractWithdrawn, ContractFenced}
                 then contracts[c].(updatedAt := now,
                                    state := if trigger == ClusterWithdrawal then ContractWithdrawn else ContractFenced)
                 else contracts[c]
  {
  }

  /** A finished plan fences the grants it names that are live or expired, and leaves every other grant; it ends
      the contracts it names that are not ended yet, as withdrawn when a cluster withdrew and as fenced
      otherwise. */
  lemma FenceEffect(r: Registry, trigger: FenceTrigger, plan: seq<FenceAction>, now: Time)
    requires ApplyPlan(r, trigger, plan, now).ok
    ensures var s := ApplyPlan(r, trigger, plan, now).reg;
            && s.grants.Keys == r.grants.Keys && s.contracts.Keys == r.contracts.Keys
            && (forall g <- r.grants ::
                  s.grants[g] == if FenceGrant(g) in plan
                    && r.grants[g].state !in {Aborted, GrantFenced, GrantWithdrawn}
                                 then r.grants[g].(state := GrantFenced) else r.grants[g])
            && forall c <- r.contracts ::
                 s.contracts[c]
                 == if FenceContract(c) in plan && r.contracts[c].state !in {ContractWithdrawn, ContractFenced}
                    then r.contracts[c].(updatedAt := now,
                                         state := if trigger == ClusterWithdrawal then ContractWithdrawn
                                           else ContractFenced)
                    else r.contracts[c]
  {
    PlanEffect(r, trigger, plan, now);
    GrantsFenced(r.grants, plan);
    ContractsFenced(r.contracts, trigger, plan, now);
  }

  predicate LiveState(g: Grant) { g.state in {Preparing, Prepared, Committed, GrantActive, GrantIndeterminate} }

  predicate NamedBy(r: Registry, c: Uuid, cluster: Name) {
    c in r.contracts
      && (r.contracts[c].parties.first.cluster == cluster || r.contracts[c].parties.second.cluster == cluster)
  }

  /** What the plan for a cluster withdraws: the live grants over its contracts, what grants over them hold, and
      those of its contracts that have a live grant and are not withdrawn. */
  lemma PlansExactly(r: Registry, cluster: Name, a: FenceAction)
    ensures Planned(r, cluster, a) <==>
              match a
              case FenceGrant(g) => g in r.grants && NamedBy(r, r.grants[g].contract, cluster) && LiveState(r.grants[g])
              case ReleaseReservation(k) =>
                && k in r.reservations && !r.reservations[k].released && r.reservations[k].grant in r.grants
                && NamedBy(r, r.grants[r.reservations[k].grant].contract, cluster)
              case FenceContract(c) =>
                && NamedBy(r, c, cluster) && r.contracts[c].state != ContractWithdrawn
                && exists g <- r.grants :: r.grants[g].contract == c && LiveState(r.grants[g])
  {
    match a
    case FenceContract(c) =>
      if c in r.contracts {
        assert (exists g :: LiveGrantOf(r, c, g)) <==>
               exists g <- r.grants :: r.grants[g].contract == c && LiveState(r.grants[g]) by {
          if g :| LiveGrantOf(r, c, g) { assert g in r.grants && LiveState(r.grants[g]); }
          if g :| g in r.grants && r.grants[g].contract == c && LiveState(r.grants[g]) { assert LiveGrantOf(r, c, g); }
        }
      }
    case FenceGrant(g) =>
      if g in r.grants && NamedBy(r, r.grants[g].contract, cluster) && LiveState(r.grants[g]) {
        assert r.contracts[r.grants[g].contract].Names(cluster) && PlannedFor(r, r.grants[g].contract, a);
      }
    case ReleaseReservation(k) =>
      if k in r.reservations && !r.reservations[k].released && r.reservations[k].grant in r.grants
         && NamedBy(r, r.grants[r.reservations[k].grant].contract, cluster) {
        var c := r.grants[r.reservations[k].grant].contract;
        assert r.contracts[c].Names(cluster) && PlannedFor(r, c, a);
      }
  }

  /** What the plan of a restart withdraws: every grant that is not ended, and everything held. */
  lemma RecoversExactly(r: Registry, plan: seq<FenceAction>, a: FenceAction)
    requires IsRecoveryPlan(r, plan)
    ensures a in plan <==>
              match a
              case FenceGrant(g) => g in r.grants && (LiveState(r.grants[g]))
              case ReleaseReservation(k) => k in r.reservations && !r.reservations[k].released
              case FenceContract(_) => false
  {
  }
}
