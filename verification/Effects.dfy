/** What the coordinator's handlers achieve, beside what they keep: fences take hold, leases end, and a grant
    flow that nobody disturbs ends in a usable grant. */
module Effects {
  import opened Model
  import opened Engine
  import opened Fencing
  import opened FenceEffects
  import opened FenceReach
  import opened Planning
  import opened Coordination
  import opened Frames

  // ---- fences ----

  /** The plan was made for the registry, is within its bound, and the audit trail takes its lines and the
      closing one. */
  ghost predicate Effective(r: Registry, cluster: Name, plan: seq<FenceAction>) {
    && IsFencePlan(r, cluster, plan) && |plan| <= MAX_FENCE_PLAN_ENTRIES
    && |r.audit| + |Lines(r, plan)| < MAX_AUDIT_RECORDS
  }

  /** The cluster's record is `c` up to lowered counters, and nothing is authorized over its contracts. */
  ghost predicate CutOff(s: Registry, cluster: Name, c: Cluster) {
    && cluster in s.clusters && ClusterLowered(c, s.clusters[cluster])
    && forall q: Query, v: View, k, g :: Authorizes(s, q, v, k, g) ==> !s.contracts[k].Names(cluster)
  }

  lemma FenceCutsOff(r: Registry, cluster: Name, c: Cluster, trigger: FenceTrigger, plan: seq<FenceAction>, now: Time)
    requires Effective(WithCluster(r, cluster, c), cluster, plan)
    ensures CutOff(FenceCluster(WithCluster(r, cluster, c), trigger, plan, now).reg, cluster, c)
  {
    var changed := WithCluster(r, cluster, c);
    var s := FenceCluster(changed, trigger, plan, now).reg;
    PlanWithdraws(changed, trigger, plan, now);
    FenceComplete(changed, trigger, cluster, plan, now);
    FenceClusterParts(changed, trigger, plan, now);
    assert ClusterLowered(changed.clusters[cluster], s.clusters[cluster]);
    forall q: Query, v: View, k, g | Authorizes(s, q, v, k, g) ensures !s.contracts[k].Names(cluster) {
      FencedClusterCarriesNothing(changed, s, cluster, q, v, k, g);
    }
  }

  /** A handshake under a new incarnation and a greater generation. */
  lemma ReincarnationCutsOff(s: Coord, conn: nat, h: Hello, token: Uuid, plan: seq<FenceAction>, now: Time)
    requires h.cluster != [] && h.domain != [] && h.cluster in s.reg.clusters
    requires s.reg.clusters[h.cluster].domain == h.domain
    requires h.incarnation != s.reg.clusters[h.cluster].incarnation
    requires h.generation > s.reg.clusters[h.cluster].generation
    requires var c := Reincarnation(s.reg.clusters[h.cluster], h);
             Effective(WithCluster(s.reg, h.cluster, c), h.cluster, plan)
    ensures var t := OnHello(s, conn, h, token, plan, now);
            && CutOff(t.reg, h.cluster, Reincarnation(s.reg.clusters[h.cluster], h))
            && conn in t.sessions && t.sessions[conn].incarnation == h.incarnation
            && t.sessions[conn].generation == h.generation
  {
    FenceClusterEnds(WithCluster(s.reg, h.cluster, Reincarnation(s.reg.clusters[h.cluster], h)), ClusterReincarnation,
                     plan, now);
    FenceCutsOff(s.reg, h.cluster, Reincarnation(s.reg.clusters[h.cluster], h), ClusterReincarnation, plan, now);
  }

  /** A withdrawal by the cluster's current incarnation. */
  lemma WithdrawalCutsOff(
      s: Coord, conn: nat, token: Uuid, cluster: Name, incarnation: Uuid, generation: nat, plan: seq<FenceAction>,
      now: Time)
    requires Authentic(s, conn, token) && s.sessions[conn].cluster == cluster && cluster in s.reg.clusters
    requires incarnation == s.reg.clusters[cluster].incarnation && generation >= s.reg.clusters[cluster].generation
    requires var c := s.reg.clusters[cluster].(consentWithdrawn := true);
             Effective(WithCluster(s.reg, cluster, c), cluster, plan)
    ensures CutOff(OnWithdraw(s, conn, token, cluster, incarnation, generation, plan, now).reg, cluster,
                   s.reg.clusters[cluster].(consentWithdrawn := true))
  {
    FenceCutsOff(s.reg, cluster, s.reg.clusters[cluster].(consentWithdrawn := true), ClusterWithdrawal, plan, now);
  }

  /** Two contents for one generation: the conflict is recorded and the cluster is cut off. */
  lemma ConflictCutsOff(s: Coord, conn: nat, token: Uuid, incoming: Cluster, plan: seq<FenceAction>, now: Time)
    requires Authentic(s, conn, token) && incoming.id == s.sessions[conn].cluster && incoming.id in s.reg.clusters
    requires incoming.incarnation == s.reg.clusters[incoming.id].incarnation
    requires Clashes(s.reg.clusters[incoming.id], incoming)
    requires var c := s.reg.clusters[incoming.id].(generationConflict := true);
             Effective(WithCluster(s.reg, incoming.id, c), incoming.id, plan)
    ensures CutOff(OnReport(s, conn, token, incoming, plan, now).reg, incoming.id,
                   s.reg.clusters[incoming.id].(generationConflict := true))
  {
    FenceCutsOff(s.reg, incoming.id, s.reg.clusters[incoming.id].(generationConflict := true), Manual, plan, now);
  }

  /** An accepted report with a greater policy generation. */
  lemma PolicyChangeCutsOff(s: Coord, conn: nat, token: Uuid, incoming: Cluster, plan: seq<FenceAction>, now: Time)
    requires Authentic(s, conn, token) && incoming.id == s.sessions[conn].cluster && incoming.id in s.reg.clusters
    requires incoming.incarnation == s.reg.clusters[incoming.id].incarnation
    requires incoming.generation >= s.reg.clusters[incoming.id].generation
    requires incoming.policyGeneration > s.reg.clusters[incoming.id].policyGeneration
    requires PutCluster(s.reg, Accepted(s.reg.clusters[incoming.id], incoming)).Success?
    requires Effective(WithCluster(s.reg, incoming.id, Accepted(s.reg.clusters[incoming.id], incoming)), incoming.id,
                       plan)
    ensures CutOff(OnReport(s, conn, token, incoming, plan, now).reg, incoming.id,
                   Accepted(s.reg.clusters[incoming.id], incoming))
  {
    FenceCutsOff(s.reg, incoming.id, Accepted(s.reg.clusters[incoming.id], incoming), PolicyGenerationChange, plan,
                 now);
  }

  // ---- consent ----

  /** A consent that fits and says something new is recorded for its side alone; the contract is consented
      exactly when now both sides accept, and one refusal refuses it. */
  lemma ConsentTakesEffect(s: Coord, conn: nat, token: Uuid, m: ConsentNotice, now: Time, side: Side)
    requires Authentic(s, conn, token) && m.contract in s.reg.contracts
    requires s.reg.contracts[m.contract].SideOf(s.sessions[conn].cluster) == Some(side)
    requires ConsentFits(s.sessions[conn], s.reg.contracts[m.contract], side, m)
    requires !Repeats(s.reg.contracts[m.contract].consents.At(side), m)
    ensures var before, after :=
            s.reg.contracts[m.contract], OnConsent(s, conn, token, m, now).reg.contracts[m.contract];
            var other := if side == First then Second else First;
            && after.consents.At(side).Some? && after.consents.At(side).value.decision == m.decision
            && after.consents.At(side).value.termsDigest == before.termsDigest
            && after.consents.At(other) == before.consents.At(other)
            && (after.state == Consented <==> after.BothConsented())
            && (after.state == ContractRefused <==> m.decision == ConsentRefused)
  {
  }

  // ---- leases ----

  /** After the tick no usable grant has outlived its lease, the expired ones say so, and the others are as
      they were; even when the fence plan stops midway. */
  lemma ExpiryIsExact(s: Coord, plan: seq<FenceAction>, now: Time, g: Uuid)
    requires IsRevocationPlan(s.reg, Expiring(s.reg, now), plan) && g in s.reg.grants
    ensures var t := ExpireGrants(s, plan, now).reg;
            && g in t.grants && !LeaseOver(t.grants[g], now)
            && t.grants[g] == if LeaseOver(s.reg.grants[g], now) then s.reg.grants[g].(state := GrantExpired)
               else s.reg.grants[g]
  {
    PlanWithdraws(s.reg, GrantExpiry, plan, now);
    var fenced := ApplyPlan(s.reg, GrantExpiry, plan, now).reg;
    assert GrantWithdrawnOnly(s.reg.grants[g], fenced.grants[g]);
    if g !in Expiring(s.reg, now) { NeverNamed(s.reg, GrantExpiry, plan, now, g); }
  }

  /** A plan that does not name a grant leaves it alone, however far it gets. */
  lemma {:induction false} NeverNamed(r: Registry, trigger: FenceTrigger, plan: seq<FenceAction>, now: Time, g: Uuid)
    requires g in r.grants && FenceGrant(g) !in plan
    ensures var s := ApplyPlan(r, trigger, plan, now).reg; g in s.grants && s.grants[g] == r.grants[g]
    decreases |plan|
  {
    if plan != [] {
      NeverNamed(r, trigger, plan[..|plan| - 1], now, g);
      ActionParts(ApplyPlan(r, trigger, plan[..|plan| - 1], now), trigger, plan[|plan| - 1], now);
    }
  }

  // ---- a grant flow from issue to use ----

  /** A session that can answer for one side of the grant. */
  predicate Answers(s: Coord, conn: nat, token: Uuid, g: Uuid, attempt: Uuid, side: Side) {
    ReplySide(s, conn, token, g, attempt) == Some(side)
  }

  /** Nothing that decides who may answer has changed. */
  predicate SameAnswers(s: Coord, t: Coord, g: Uuid) {
    && t.sessions == s.sessions && t.reg.contracts == s.reg.contracts && g in s.reg.grants && g in t.reg.grants
    && t.reg.grants[g].contract == s.reg.grants[g].contract && t.reg.grants[g].attempt == s.reg.grants[g].attempt
    && t.reg.grants[g].bindings == s.reg.grants[g].bindings
  }

  lemma AnswersStay(s: Coord, t: Coord, conn: nat, token: Uuid, g: Uuid, attempt: Uuid, side: Side)
    requires SameAnswers(s, t, g) && Answers(s, conn, token, g, attempt, side)
    ensures Answers(t, conn, token, g, attempt, side)
  {
  }

  /** The two prepare replies turn a grant being prepared into a prepared one, in either order. */
  lemma BothPrepared(s: Coord, g: Uuid, one: nat, oneToken: Uuid, two: nat, twoToken: Uuid, side: Side)
    requires g in s.reg.grants && s.reg.grants[g].state == Preparing && g in s.pending
    requires s.pending[g].targets.first.Some? && s.pending[g].targets.second.Some?
    requires Answers(s, one, oneToken, g, s.reg.grants[g].attempt, side)
    requires Answers(s, two, twoToken, g, s.reg.grants[g].attempt, if side == First then Second else First)
    requires s.pending[g].prepared == Two(false, false)
    ensures var a := s.reg.grants[g].attempt;
            var t := OnPrepared(OnPrepared(s, one, oneToken, g, a, true), two, twoToken, g, a, true);
            && t.reg == WithGrant(s.reg, g, s.reg.grants[g].(state := Prepared)) && t.sessions == s.sessions
  {
    var a := s.reg.grants[g].attempt;
    var other := if side == First then Second else First;
    var flow := s.pending[g].(prepared := s.pending[g].prepared.Set(side, true));
    var mid := OnPrepared(s, one, oneToken, g, a, true);
    assert mid == s.(pending := s.pending[g := flow]);
    AnswersStay(s, mid, two, twoToken, g, a, other);
  }

  /** The records once both sides are acknowledged and reserved. */
  function CommittedAfter(r: Registry, g: Uuid, full: Grant, ids: Two<Uuid>, now: Time): Registry {
    WithGrant(Reserve(WithGrant(r, g, full), full, ids, now).reg, g, full.(state := Committed))
  }

  lemma FinaliseDecides(s: Coord, g: Uuid, ids: Two<Uuid>, now: Time)
    requires g in s.reg.grants && !s.reg.grants[g].Usable() && s.reg.grants[g].BothAcknowledged()
    ensures var grant, t := s.reg.grants[g], Finalise(s, g, ids, now).coord;
            && g in t.reg.grants && t.reg.grants[g] == grant.(state := t.reg.grants[g].state)
            && (t.reg.grants[g].Usable() <==> Reserve(s.reg, grant, ids, now).ok)
            && (Reserve(s.reg, grant, ids, now).ok ==>
                  t.reg == WithGrant(Reserve(s.reg, grant, ids, now).reg, g, grant.(state := Committed))
                    && t.sessions == s.sessions)
  {
    ReserveKeepsGrants(s.reg, s.reg.grants[g], ids, now);
  }

  /** An accepted commit reply makes an unusable grant usable exactly when it completes the acknowledgements
      and both sides can be reserved; nothing about the grant but its state and that acknowledgement
      changes. */
  lemma CommitDecides(s: Coord, conn: nat, token: Uuid, g: Uuid, ids: Two<Uuid>, now: Time)
    requires g in s.reg.grants && !s.reg.grants[g].Usable()
    requires ReplySide(s, conn, token, g, s.reg.grants[g].attempt).Some?
    ensures var side := ReplySide(s, conn, token, g, s.reg.grants[g].attempt).value;
            var acknowledged := Acknowledge(s.reg.grants[g], side);
            var t := OnCommitted(s, conn, token, g, s.reg.grants[g].attempt, true, ids, now);
            && g in t.reg.grants && t.reg.grants[g] == acknowledged.(state := t.reg.grants[g].state)
            && (t.reg.grants[g].Usable() <==>
                  acknowledged.BothAcknowledged()
                    && Reserve(WithGrant(s.reg, g, acknowledged), acknowledged, ids, now).ok)
            && (t.reg.grants[g].Usable() ==>
                t.reg == CommittedAfter(s.reg, g, acknowledged, ids, now) && t.sessions == s.sessions)
  {
    var side := ReplySide(s, conn, token, g, s.reg.grants[g].attempt).value;
    var acknowledged := Acknowledge(s.reg.grants[g], side);
    if acknowledged.BothAcknowledged() {
      FinaliseDecides(s.(reg := WithGrant(s.reg, g, acknowledged)), g, ids, now);
    }
  }

  /** The two commit replies make a prepared grant usable exactly when both sides can be reserved. */
  lemma BothCommitted(
      s: Coord, g: Uuid, one: nat, oneToken: Uuid, two: nat, twoToken: Uuid, side: Side, spare: Two<Uuid>,
      ids: Two<Uuid>, now: Time)
    requires g in s.reg.grants && s.reg.grants[g].state == Prepared && s.reg.grants[g].acknowledged == Two(false, false)
    requires Answers(s, one, oneToken, g, s.reg.grants[g].attempt, side)
    requires Answers(s, two, twoToken, g, s.reg.grants[g].attempt, if side == First then Second else First)
    ensures var a := s.reg.grants[g].attempt;
            var t := OnCommitted(OnCommitted(s, one, oneToken, g, a, true, spare, now), two, twoToken, g, a, true, ids,
                                 now);
            var full := s.reg.grants[g].(acknowledged := Two(true, true));
            && g in t.reg.grants && t.reg.grants[g].acknowledged == Two(true, true)
            && (t.reg.grants[g].Usable() <==> Reserve(WithGrant(s.reg, g, full), full, ids, now).ok)
            && (t.reg.grants[g].Usable() ==>
                t.reg == CommittedAfter(s.reg, g, full, ids, now) && t.sessions == s.sessions)
  {
    var a := s.reg.grants[g].attempt;
    var other := if side == First then Second else First;
    var mid := OnCommitted(s, one, oneToken, g, a, true, spare, now);
    assert mid == s.(reg := WithGrant(s.reg, g, Acknowledge(s.reg.grants[g], side)));
    AnswersStay(s, mid, two, twoToken, g, a, other);
    var full := s.reg.grants[g].(acknowledged := Two(true, true));
    assert Acknowledge(mid.reg.grants[g], other) == full;
    assert WithGrant(mid.reg, g, full) == WithGrant(s.reg, g, full);
    CommitDecides(mid, two, twoToken, g, ids, now);
  }

  /** Both sides can be reserved exactly when each endpoint has room for the grant and its record. */
  lemma ReserveSucceeds(r: Registry, g: Grant, ids: Two<Uuid>, now: Time)
    requires g.contract in r.contracts
    requires var p := r.contracts[g.contract].parties; p.first.cluster != p.second.cluster
    requires ids.first != ids.second && ids.first !in r.reservations && ids.second !in r.reservations
    requires ids.first != 0 && ids.second != 0 && |r.reservations| + 2 <= MAX_RESERVATIONS
    ensures var p := r.contracts[g.contract].parties;
            Reserve(r, g, ids, now).ok <==> CanReserve(r, p.first, g.capacity) && CanReserve(r, p.second, g.capacity)
  {
    var p := r.contracts[g.contract].parties;
    var one := ReserveSide(r, g.id, g.capacity, p.first, ids.first, now);
    if one.ok { OtherClusterUntouched(r, g, p.first, p.second, ids.first, now); }
  }

  lemma OtherClusterUntouched(r: Registry, g: Grant, here: Party, there: Party, id: Uuid, now: Time)
    requires here.cluster != there.cluster && id !in r.reservations
    requires ReserveSide(r, g.id, g.capacity, here, id, now).ok
    ensures var s := ReserveSide(r, g.id, g.capacity, here, id, now).reg;
            && (CanReserve(s, there, g.capacity) <==> CanReserve(r, there, g.capacity))
            && |s.reservations| == |r.reservations| + 1
  {
    var s := ReserveSide(r, g.id, g.capacity, here, id, now).reg;
    assert s.reservations.Keys == r.reservations.Keys + {id};
  }

  // ---- the whole flow ----

  predicate MoreRecent(sessions: map<nat, Session>, m: nat, n: nat)
    requires m in sessions && n in sessions
  {
    sessions[n].connectedAt < sessions[m].connectedAt || (sessions[n].connectedAt == sessions[m].connectedAt && n < m)
  }

  /** A cluster with a session has a connection to send to. */
  lemma TargetExists(sessions: map<nat, Session>, cluster: Name, n: nat)
    requires n in sessions && sessions[n].cluster == cluster
    ensures TargetFor(sessions, cluster).Some?
  {
    var best, todo := n, sessions.Keys - {n};
    while todo != {}
      invariant todo <= sessions.Keys && best in sessions && best !in todo && sessions[best].cluster == cluster
      invariant forall m <- sessions.Keys - todo :: sessions[m].cluster == cluster ==>
                m == best || MoreRecent(sessions, best, m)
      decreases |todo|
    {
      var m :| m in todo;
      todo := todo - {m};
      if sessions[m].cluster == cluster && MoreRecent(sessions, m, best) { best := m; }
    }
    assert IsTarget(sessions, cluster, best);
  }

  /** The agent of the party on this side is connected in the incarnation and generation on record. */
  predicate Present(s: Coord, c: Contract, side: Side, conn: nat, token: Uuid) {
    && Authentic(s, conn, token) && c.parties.At(side).cluster in s.reg.clusters
    && s.sessions[conn].cluster == c.parties.At(side).cluster
    && s.sessions[conn].incarnation == s.reg.clusters[c.parties.At(side).cluster].incarnation
    && s.sessions[conn].generation == s.reg.clusters[c.parties.At(side).cluster].generation
  }

  /** Issuing over an open contract with both agents present opens a flow that both can answer. */
  lemma IssueOpensFlow(
      s: Coord, c: Uuid, capacity: nat, id: Uuid, attempt: Uuid, now: Time, one: nat, oneToken: Uuid, two: nat,
      twoToken: Uuid)
    requires c in s.reg.contracts && Open(s.reg.contracts[c]) && capacity <= s.reg.contracts[c].capacity
    requires var p := s.reg.contracts[c].parties; p.first.cluster != p.second.cluster
    requires Present(s, s.reg.contracts[c], First, one, oneToken)
    requires Present(s, s.reg.contracts[c], Second, two, twoToken)
    requires PutGrant(s.reg, NewGrant(s, id, attempt, c, capacity, now)).Success?
    ensures var t := Issue(s, c, capacity, id, attempt, now);
            && t.reg == WithGrant(s.reg, id, NewGrant(s, id, attempt, c, capacity, now)) && t.sessions == s.sessions
            && FlowOpen(t, id, one, oneToken, two, twoToken)
  {
    var p := s.reg.contracts[c].parties;
    TargetExists(s.sessions, p.first.cluster, one);
    TargetExists(s.sessions, p.second.cluster, two);
    var n := NewGrant(s, id, attempt, c, capacity, now);
    assert PutGrant(s.reg, n) == Success(WithGrant(s.reg, id, n));
    PrepareLeavesRecords(s.(reg := WithGrant(s.reg, id, n)), id, now);
  }

  /** All four replies to an open flow, one after the other. */
  function Answered(
      s: Coord, g: Uuid, attempt: Uuid, one: nat, oneToken: Uuid, two: nat, twoToken: Uuid, spare: Two<Uuid>,
      ids: Two<Uuid>, now: Time)
    : Coord
  {
    var prepared := OnPrepared(OnPrepared(s, one, oneToken, g, attempt, true), two, twoToken, g, attempt, true);
    OnCommitted(OnCommitted(prepared, one, oneToken, g, attempt, true, spare, now), two, twoToken, g, attempt, true,
                ids, now)
  }

  /** A flow that both agents can answer, before any reply. */
  predicate FlowOpen(s: Coord, g: Uuid, one: nat, oneToken: Uuid, two: nat, twoToken: Uuid) {
    && g in s.reg.grants && s.reg.grants[g].state == Preparing && s.reg.grants[g].acknowledged == Two(false, false)
    && g in s.pending && s.pending[g].targets.first.Some? && s.pending[g].targets.second.Some?
    && s.pending[g].prepared == Two(false, false)
    && Answers(s, one, oneToken, g, s.reg.grants[g].attempt, First)
    && Answers(s, two, twoToken, g, s.reg.grants[g].attempt, Second)
  }

  lemma AnsweredFlow(
      s: Coord, g: Uuid, one: nat, oneToken: Uuid, two: nat, twoToken: Uuid, spare: Two<Uuid>, ids: Two<Uuid>,
      now: Time)
    requires FlowOpen(s, g, one, oneToken, two, twoToken)
    ensures var t := Answered(s, g, s.reg.grants[g].attempt, one, oneToken, two, twoToken, spare, ids, now);
            var full := s.reg.grants[g].(state := Prepared, acknowledged := Two(true, true));
            && g in t.reg.grants
            && (t.reg.grants[g].Usable() <==> Reserve(WithGrant(s.reg, g, full), full, ids, now).ok)
            && (t.reg.grants[g].Usable() ==>
                t.reg == CommittedAfter(s.reg, g, full, ids, now) && t.sessions == s.sessions)
  {
    var a := s.reg.grants[g].attempt;
    BothPrepared(s, g, one, oneToken, two, twoToken, First);
    var prepared := OnPrepared(OnPrepared(s, one, oneToken, g, a, true), two, twoToken, g, a, true);
    AnswersStay(s, prepared, one, oneToken, g, a, First);
    AnswersStay(s, prepared, two, twoToken, g, a, Second);
    BothCommitted(prepared, g, one, oneToken, two, twoToken, First, spare, ids, now);
    var full := s.reg.grants[g].(state := Prepared, acknowledged := Two(true, true));
    assert WithGrant(prepared.reg, g, full) == WithGrant(s.reg, g, full);
  }

  lemma RoomIsEnough(r: Registry, id: Uuid, g: Grant, ids: Two<Uuid>, now: Time)
    requires g.contract in r.contracts
    requires var p := r.contracts[g.contract].parties; p.first.cluster != p.second.cluster
    requires ids.first != ids.second && ids.first !in r.reservations && ids.second !in r.reservations
    requires ids.first != 0 && ids.second != 0 && |r.reservations| + 2 <= MAX_RESERVATIONS
    ensures var p := r.contracts[g.contract].parties;
            Reserve(WithGrant(r, id, g), g, ids, now).ok <==>
              CanReserve(r, p.first, g.capacity) && CanReserve(r, p.second, g.capacity)
  {
    ReserveSucceeds(WithGrant(r, id, g), g, ids, now);
  }

  /** With both agents answering, the grant ends usable exactly when both endpoints have room for it. */
  lemma FlowCompletes(
      s: Coord, g: Uuid, one: nat, oneToken: Uuid, two: nat, twoToken: Uuid, spare: Two<Uuid>, ids: Two<Uuid>,
      now: Time)
    requires FlowOpen(s, g, one, oneToken, two, twoToken)
    requires ids.first != ids.second && ids.first !in s.reg.reservations && ids.second !in s.reg.reservations
    requires ids.first != 0 && ids.second != 0 && |s.reg.reservations| + 2 <= MAX_RESERVATIONS
    requires s.reg.grants[g].contract in s.reg.contracts
    requires var p := s.reg.contracts[s.reg.grants[g].contract].parties; p.first.cluster != p.second.cluster
    ensures var t := Answered(s, g, s.reg.grants[g].attempt, one, oneToken, two, twoToken, spare, ids, now);
            var p, amount := s.reg.contracts[s.reg.grants[g].contract].parties, s.reg.grants[g].capacity;
            && g in t.reg.grants
            && (t.reg.grants[g].Usable() <==> CanReserve(s.reg, p.first, amount) && CanReserve(s.reg, p.second, amount))
  {
    AnsweredFlow(s, g, one, oneToken, two, twoToken, spare, ids, now);
    RoomIsEnough(s.reg, g, s.reg.grants[g].(state := Prepared, acknowledged := Two(true, true)), ids, now);
  }
}
