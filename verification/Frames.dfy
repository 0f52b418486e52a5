/** What coordinator steps leave alone: the vocabulary of the protocol's invariants. */
module Frames {
  import opened Model
  import opened Engine
  import opened Fencing
  import opened Coordination

  // ---- relations between the registry before and after ----

  /** Only the state of a grant may differ. */
  predicate GrantKept(a: Grant, b: Grant) {
    b == a.(state := b.state)
  }

  predicate GrantsKept(a: map<Uuid, Grant>, b: map<Uuid, Grant>) {
    a.Keys == b.Keys && forall g <- a :: GrantKept(a[g], b[g])
  }

  /** Only the state and the time of the last update may differ. */
  predicate ContractKept(a: Contract, b: Contract) {
    b == a.(state := b.state, updatedAt := b.updatedAt)
  }

  predicate ContractsKept(a: map<Uuid, Contract>, b: map<Uuid, Contract>) {
    a.Keys == b.Keys && forall c <- a :: ContractKept(a[c], b[c])
  }

  /** Generations move forward only, and a new incarnation comes with a greater generation. */
  predicate Advanced(a: Cluster, b: Cluster) {
    && a.generation <= b.generation && a.policyGeneration <= b.policyGeneration
    && (a.incarnation != b.incarnation ==> a.generation < b.generation)
  }

  predicate ClustersAdvance(a: map<Name, Cluster>, b: map<Name, Cluster>) {
    a.Keys <= b.Keys && forall c <- a :: Advanced(a[c], b[c])
  }

  /** A step that gives nobody anything: no acknowledgement, no consent, no new attempt. */
  predicate Tame(r: Registry, s: Registry) {
    GrantsKept(r.grants, s.grants) && ContractsKept(r.contracts, s.contracts) && ClustersAdvance(r.clusters, s.clusters)
  }

  lemma TameReflexive(r: Registry)
    ensures Tame(r, r)
  {
  }

  lemma AdvanceTransitive(a: map<Name, Cluster>, b: map<Name, Cluster>, c: map<Name, Cluster>)
    requires ClustersAdvance(a, b) && ClustersAdvance(b, c)
    ensures ClustersAdvance(a, c)
  {
    forall k | k in a ensures Advanced(a[k], c[k]) {
      assert Advanced(a[k], b[k]) && Advanced(b[k], c[k]);
    }
  }

  lemma TameTransitive(r: Registry, s: Registry, t: Registry)
    requires Tame(r, s) && Tame(s, t)
    ensures Tame(r, t)
  {
    AdvanceTransitive(r.clusters, s.clusters, t.clusters);
    forall g | g in r.grants ensures GrantKept(r.grants[g], t.grants[g]) {
      assert GrantKept(r.grants[g], s.grants[g]) && GrantKept(s.grants[g], t.grants[g]);
    }
    forall c | c in r.contracts ensures ContractKept(r.contracts[c], t.contracts[c]) {
      assert ContractKept(r.contracts[c], s.contracts[c]) && ContractKept(s.contracts[c], t.contracts[c]);
    }
  }

  // ---- fencing ----

  lemma WithdrawnIsTame(r: Registry, s: Registry)
    requires Withdrawn(r, s)
    ensures Tame(r, s)
  {
    forall c | c in r.clusters ensures Advanced(r.clusters[c], s.clusters[c]) {
      assert ClusterLowered(r.clusters[c], s.clusters[c]);
    }
    forall g | g in r.grants ensures GrantKept(r.grants[g], s.grants[g]) {
      assert GrantWithdrawnOnly(r.grants[g], s.grants[g]);
    }
    forall c | c in r.contracts ensures ContractKept(r.contracts[c], s.contracts[c]) {
      assert ContractWithdrawnOnly(r.contracts[c], s.contracts[c]);
    }
  }

  /** One cluster moves forward, then it is fenced. */
  lemma ChangeThenFence(r: Registry, id: Name, c: Cluster, trigger: FenceTrigger, plan: seq<FenceAction>, now: Time)
    requires id in r.clusters ==> Advanced(r.clusters[id], c)
    ensures Tame(r, WithCluster(r, id, c))
    ensures Tame(r, FenceCluster(WithCluster(r, id, c), trigger, plan, now).reg)
  {
    var changed := WithCluster(r, id, c);
    PlanIsTame(changed, trigger, plan, now);
    assert Tame(r, changed);
    FenceClusterParts(changed, trigger, plan, now);
    TameTransitive(r, changed, FenceCluster(changed, trigger, plan, now).reg);
  }

  lemma PlanIsTame(r: Registry, trigger: FenceTrigger, plan: seq<FenceAction>, now: Time)
    ensures Tame(r, ApplyPlan(r, trigger, plan, now).reg)
  {
    PlanWithdraws(r, trigger, plan, now);
    WithdrawnIsTame(r, ApplyPlan(r, trigger, plan, now).reg);
  }

  lemma StateChangeIsTame(r: Registry, g: Uuid, state: GrantState)
    requires g in r.grants
    ensures Tame(r, WithGrant(r, g, r.grants[g].(state := state)))
  {
  }

  // ---- the handlers that give nothing ----

  lemma HelloIsTame(s: Coord, conn: nat, h: Hello, token: Uuid, plan: seq<FenceAction>, now: Time)
    ensures Tame(s.reg, OnHello(s, conn, h, token, plan, now).reg)
  {
    TameReflexive(s.reg);
    if h.cluster !in s.reg.clusters {
      ChangeThenFence(s.reg, h.cluster, Registered(h), Manual, plan, now);
    } else {
      var c := s.reg.clusters[h.cluster];
      if c.generation < h.generation {
        ChangeThenFence(s.reg, h.cluster, Reincarnation(c, h), ClusterReincarnation, plan, now);
      }
      if c.policyGeneration < h.policyGeneration {
        ChangeThenFence(s.reg, h.cluster, c.(policyGeneration := h.policyGeneration), PolicyGenerationChange, plan,
                        now);
      }
    }
  }

  lemma ReportIsTame(s: Coord, conn: nat, token: Uuid, incoming: Cluster, plan: seq<FenceAction>, now: Time)
    ensures Tame(s.reg, OnReport(s, conn, token, incoming, plan, now).reg)
  {
    TameReflexive(s.reg);
    if incoming.id in s.reg.clusters {
      var c := s.reg.clusters[incoming.id];
      if incoming.generation >= c.generation && incoming.incarnation == c.incarnation {
        ChangeThenFence(s.reg, incoming.id, c.(generationConflict := true), Manual, plan, now);
        if incoming.policyGeneration >= c.policyGeneration {
          ChangeThenFence(s.reg, incoming.id, Accepted(c, incoming), PolicyGenerationChange, plan, now);
        }
      }
    }
  }

  lemma WithdrawIsTame(
      s: Coord, conn: nat, token: Uuid, cluster: Name, incarnation: Uuid, generation: nat, plan: seq<FenceAction>,
      now: Time)
    ensures Tame(s.reg, OnWithdraw(s, conn, token, cluster, incarnation, generation, plan, now).reg)
  {
    TameReflexive(s.reg);
    if cluster in s.reg.clusters {
      ChangeThenFence(s.reg, cluster, s.reg.clusters[cluster].(consentWithdrawn := true), ClusterWithdrawal, plan, now);
    }
  }

  lemma ConsentChangeIsTame(s: Coord, cluster: Name, withdraw: bool, plan: seq<FenceAction>, now: Time)
    ensures Tame(s.reg, ConsentChange(s, cluster, withdraw, plan, now).reg)
  {
    TameReflexive(s.reg);
    if cluster in s.reg.clusters {
      ChangeThenFence(s.reg, cluster, s.reg.clusters[cluster].(consentWithdrawn := withdraw), ClusterWithdrawal, plan,
                      now);
    }
  }

  lemma ResolveIsTame(s: Coord, cluster: Name, generation: nat, plan: seq<FenceAction>, now: Time)
    ensures Tame(s.reg, ResolveConflict(s, cluster, generation, plan, now).reg)
  {
    TameReflexive(s.reg);
    if cluster in s.reg.clusters && generation > s.reg.clusters[cluster].generation {
      var c := s.reg.clusters[cluster].(generationConflict := false, generation := generation);
      ChangeThenFence(s.reg, cluster, c, Manual, plan, now);
    }
  }

  lemma SetStateIsTame(s: Coord, cluster: Name, state: ClusterState, plan: seq<FenceAction>, now: Time)
    ensures Tame(s.reg, SetClusterState(s, cluster, state, plan, now).reg)
  {
    TameReflexive(s.reg);
    if cluster in s.reg.clusters {
      ChangeThenFence(s.reg, cluster, s.reg.clusters[cluster].(state := state), Manual, plan, now);
    }
  }

  lemma DisconnectIsTame(s: Coord, conn: nat)
    ensures Tame(s.reg, HandleDisconnect(s, conn).reg)
  {
  }

  lemma AbortIsTame(s: Coord, g: Uuid)
    ensures Tame(s.reg, Abort(s, g).reg)
  {
  }

  lemma CommitIsTame(s: Coord, g: Uuid)
    requires g in s.reg.grants && g in s.pending
    ensures Tame(s.reg, Commit(s, g).reg)
  {
    StateChangeIsTame(s.reg, g, GrantIndeterminate);
    StateChangeIsTame(s.reg, g, Prepared);
  }

  /** What accepting a prepared reply does: the flow remembers it, and the second one commits. */
  lemma AcceptIsTame(s: Coord, g: Uuid, flow: Flow)
    requires g in s.reg.grants
    ensures var t := s.(pending := s.pending[g := flow]); Tame(s.reg, t.reg) && Tame(s.reg, Commit(t, g).reg)
  {
    TameReflexive(s.reg);
    CommitIsTame(s.(pending := s.pending[g := flow]), g);
  }

  lemma PreparedIsTame(s: Coord, conn: nat, token: Uuid, g: Uuid, attempt: Uuid, accepted: bool)
    ensures Tame(s.reg, OnPrepared(s, conn, token, g, attempt, accepted).reg)
  {
    TameReflexive(s.reg);
    AbortIsTame(s, g);
    var side := ReplySide(s, conn, token, g, attempt);
    if side.Some? && g in s.pending {
      AcceptIsTame(s, g, s.pending[g].(prepared := s.pending[g].prepared.Set(side.value, true)));
    }
  }

  lemma RaisedAdvances(clusters: map<Name, Cluster>, id: Name, e: Name, amount: nat)
    requires id in clusters && e in clusters[id].endpoints
    ensures ClustersAdvance(clusters, clusters[id := Raised(clusters[id], e, amount)])
  {
  }

  lemma ReserveSideIsTame(r: Registry, grant: Uuid, amount: nat, party: Party, id: Uuid, now: Time)
    ensures Tame(r, ReserveSide(r, grant, amount, party, id, now).reg)
  {
    TameReflexive(r);
    if CanReserve(r, party, amount) { RaisedAdvances(r.clusters, party.cluster, party.endpoint, amount); }
  }

  lemma ReserveIsTame(r: Registry, g: Grant, ids: Two<Uuid>, now: Time)
    ensures Tame(r, Reserve(r, g, ids, now).reg)
  {
    TameReflexive(r);
    if g.contract in r.contracts {
      var parties := r.contracts[g.contract].parties;
      var one := ReserveSide(r, g.id, g.capacity, parties.first, ids.first, now);
      ReserveSideIsTame(r, g.id, g.capacity, parties.first, ids.first, now);
      ReserveSideIsTame(one.reg, g.id, g.capacity, parties.second, ids.second, now);
      if one.ok {
        TameTransitive(r, one.reg, Reserve(r, g, ids, now).reg);
      }
    }
  }

  lemma ReserveKeepsGrants(r: Registry, g: Grant, ids: Two<Uuid>, now: Time)
    ensures Reserve(r, g, ids, now).reg.grants == r.grants
  {
  }

  lemma FinaliseIsTame(s: Coord, g: Uuid, ids: Two<Uuid>, now: Time)
    ensures Tame(s.reg, Finalise(s, g, ids, now).coord.reg)
  {
    TameReflexive(s.reg);
    if g in s.reg.grants {
      var reserved := Reserve(s.reg, s.reg.grants[g], ids, now).reg;
      ReserveIsTame(s.reg, s.reg.grants[g], ids, now);
      ReserveKeepsGrants(s.reg, s.reg.grants[g], ids, now);
      AbortIsTame(s.(reg := reserved), g);
      TameTransitive(s.reg, reserved, Abort(s.(reg := reserved), g).reg);
      StateChangeIsTame(reserved, g, Committed);
      TameTransitive(s.reg, reserved, WithGrant(reserved, g, s.reg.grants[g].(state := Committed)));
    }
  }

  lemma {:induction false} FinaliseAllIsTame(s: Coord, work: seq<(Uuid, Two<Uuid>)>, now: Time)
    ensures Tame(s.reg, FinaliseAll(s, work, now).reg)
    decreases |work|
  {
    TameReflexive(s.reg);
    if work != [] {
      var next := Finalise(s, work[0].0, work[0].1, now).coord;
      FinaliseIsTame(s, work[0].0, work[0].1, now);
      FinaliseAllIsTame(s, work[1..], now);
      FinaliseAllIsTame(next, work[1..], now);
      TameTransitive(s.reg, next.reg, FinaliseAll(next, work[1..], now).reg);
    }
  }

  lemma ExpireIsTame(s: Coord, plan: seq<FenceAction>, now: Time)
    ensures Tame(s.reg, ExpireGrants(s, plan, now).reg)
  {
    var fenced := ApplyPlan(s.reg, GrantExpiry, plan, now).reg;
    PlanIsTame(s.reg, GrantExpiry, plan, now);
    var marked := fenced.(grants := MarkExpired(fenced.grants, Expiring(s.reg, now)));
    assert Tame(fenced, marked);
    TameTransitive(s.reg, fenced, marked);
  }

  lemma RetryIsTame(s: Coord, now: Time)
    ensures Tame(s.reg, RetryPending(s, now).reg)
  {
  }
}
