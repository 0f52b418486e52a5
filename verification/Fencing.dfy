/** Fencing (src/runtime/fencing.cpp, and `plan_fence` of src/runtime/engine.cpp): withdrawing grants,
    contracts and the capacity they hold. */
module Fencing {
  import opened Model
  import opened Sums
  import opened Engine

  datatype FenceTrigger =
    | Manual | ClusterReincarnation | ClusterWithdrawal | PolicyGenerationChange
    | CoordinatorReincarnation | GrantRevocation | LinkFailure | GrantExpiry

  datatype FenceAction =
    | FenceGrant(grant: Uuid)
    | FenceContract(contract: Uuid)
    | ReleaseReservation(reservation: Uuid)

  datatype Tally = Tally(
    grantsFenced: nat, contractsFenced: nat, reservationsReleased: nat, alreadyFenced: nat, capacityReleased: nat)

  const NO_TALLY := Tally(0, 0, 0, 0, 0)
  const NO_TEXT := AuditText([], [], [], [])

  /** A plan applied so far; `ok` is false once the audit trail refused a line. */
  datatype Applied = Applied(reg: Registry, tally: Tally, ok: bool)

  // ---- applying one action ----

  /** The states `apply_fence_plan` withdraws; the others count as already fenced. */
  predicate Fenceable(g: Grant) {
    g.state != GrantFenced && g.state != Aborted && g.state != GrantWithdrawn
  }

  predicate ContractFenceable(c: Contract) {
    c.state != ContractWithdrawn && c.state != ContractFenced
  }

  function NextAudit(r: Registry, at: Time): Audit {
    Audit(if r.audit == [] then 1 else r.audit[|r.audit| - 1].sequence + 1, at, Fenced, NO_TEXT)
  }

  function Audited(r: Registry, tally: Tally, at: Time): Applied {
    match AppendAudit(r, NextAudit(r, at))
    case Success(r') => Applied(r', tally, true)
    case Failure(_) => Applied(r, tally, false)
  }

  function Minus(held: nat, amount: nat): nat {
    if amount <= held then held - amount else 0
  }

  function ReturnTo(c: Cluster, e: Name, amount: nat): Cluster {
    if e in c.endpoints
    then c.(endpoints := c.endpoints[e := c.endpoints[e].(reserved := Minus(c.endpoints[e].reserved, amount))])
    else c
  }

  /** The capacity goes back to every cluster that declares the endpoint. */
  function ReturnCapacity(clusters: map<Name, Cluster>, e: Name, amount: nat): map<Name, Cluster> {
    map c | c in clusters :: ReturnTo(clusters[c], e, amount)
  }

  function FencedContractState(trigger: FenceTrigger): ContractState {
    if trigger == ClusterWithdrawal then ContractWithdrawn else ContractFenced
  }

  function GrantsStep(m: map<Uuid, Grant>, a: FenceAction): map<Uuid, Grant> {
    if a.FenceGrant? && a.grant in m && Fenceable(m[a.grant])
    then m[a.grant := m[a.grant].(state := GrantFenced)] else m
  }

  function ContractsStep(m: map<Uuid, Contract>, trigger: FenceTrigger, a: FenceAction, at: Time): map<Uuid, Contract> {
    if a.FenceContract? && a.contract in m && ContractFenceable(m[a.contract])
    then m[a.contract := m[a.contract].(state := FencedContractState(trigger), updatedAt := at)] else m
  }

  predicate Releases(m: map<Uuid, Reservation>, a: FenceAction) {
    a.ReleaseReservation? && a.reservation in m && !m[a.reservation].released
  }

  function ReservationsStep(m: map<Uuid, Reservation>, a: FenceAction): map<Uuid, Reservation> {
    if Releases(m, a) then m[a.reservation := m[a.reservation].(released := true)] else m
  }

  function ClustersStep(
      m: map<Name, Cluster>, reservations: map<Uuid, Reservation>, a: FenceAction)
    : map<Name, Cluster>
  {
    if Releases(reservations, a)
    then ReturnCapacity(m, reservations[a.reservation].endpoint, reservations[a.reservation].amount) else m
  }

  /** The records after one action. */
  function Step(r: Registry, trigger: FenceTrigger, a: FenceAction, at: Time): Registry {
    r.(grants := GrantsStep(r.grants, a),
       contracts := ContractsStep(r.contracts, trigger, a, at),
       reservations := ReservationsStep(r.reservations, a),
       clusters := ClustersStep(r.clusters, r.reservations, a))
  }

  /** The action finds something to withdraw. */
  predicate Bites(r: Registry, a: FenceAction) {
    match a
    case FenceGrant(g) => g in r.grants && Fenceable(r.grants[g])
    case FenceContract(c) => c in r.contracts && ContractFenceable(r.contracts[c])
    case ReleaseReservation(k) => Releases(r.reservations, a)
  }

  function Count(t: Tally, r: Registry, a: FenceAction): Tally {
    if !Bites(r, a) then
      if a.FenceContract? && a.contract !in r.contracts then t else t.(alreadyFenced := t.alreadyFenced + 1)
    else
      match a
      case FenceGrant(_) => t.(grantsFenced := t.grantsFenced + 1)
      case FenceContract(_) => t.(contractsFenced := t.contractsFenced + 1)
      case ReleaseReservation(k) =>
        t.(reservationsReleased := t.reservationsReleased + 1,
           capacityReleased := t.capacityReleased + r.reservations[k].amount)
  }

  /** One action: a withdrawn grant or contract also costs an audit line, which a full trail refuses
      after the record has already changed. */
  function ApplyAction(s: Applied, trigger: FenceTrigger, a: FenceAction, at: Time): Applied {
    var r := Step(s.reg, trigger, a, at);
    var tally := Count(s.tally, s.reg, a);
    if Bites(s.reg, a) && !a.ReleaseReservation? then Audited(r, tally, at) else Applied(r, tally, s.ok)
  }

  /** The plan up to and including the first refused audit line. */
  function ApplyPlan(r: Registry, trigger: FenceTrigger, actions: seq<FenceAction>, at: Time): Applied {
    if actions == [] then Applied(r, NO_TALLY, true)
    else
      var s := ApplyPlan(r, trigger, actions[..|actions| - 1], at);
      if s.ok then ApplyAction(s, trigger, actions[|actions| - 1], at) else s
  }

  // ---- what fencing may and may not touch ----

  predicate EndpointLowered(a: Endpoint, b: Endpoint) {
    b == a.(reserved := b.reserved) && b.reserved <= a.reserved
  }

  predicate ClusterLowered(a: Cluster, b: Cluster) {
    && b == a.(endpoints := b.endpoints) && a.endpoints.Keys == b.endpoints.Keys
    && forall e <- a.endpoints :: EndpointLowered(a.endpoints[e], b.endpoints[e])
  }

  predicate GrantWithdrawnOnly(a: Grant, b: Grant) {
    b == a || (Fenceable(a) && b == a.(state := GrantFenced))
  }

  predicate ContractWithdrawnOnly(a: Contract, b: Contract) {
    b == a || (ContractFenceable(a) && !ContractFenceable(b) && b == a.(state := b.state, updatedAt := b.updatedAt))
  }

  predicate ReservationReleasedOnly(a: Reservation, b: Reservation) {
    b == a || b == a.(released := true)
  }

  predicate ClustersLowered(a: map<Name, Cluster>, b: map<Name, Cluster>) {
    a.Keys == b.Keys && forall c <- a :: ClusterLowered(a[c], b[c])
  }

  predicate ContractsWithdrawn(a: map<Uuid, Contract>, b: map<Uuid, Contract>) {
    a.Keys == b.Keys && forall c <- a :: ContractWithdrawnOnly(a[c], b[c])
  }

  predicate GrantsWithdrawn(a: map<Uuid, Grant>, b: map<Uuid, Grant>) {
    a.Keys == b.Keys && forall g <- a :: GrantWithdrawnOnly(a[g], b[g])
  }

  predicate ReservationsReleased(a: map<Uuid, Reservation>, b: map<Uuid, Reservation>) {
    a.Keys == b.Keys && forall k <- a :: ReservationReleasedOnly(a[k], b[k])
  }

  /** `s` is `r` with authority withdrawn and nothing else changed (audit lines aside). */
  predicate Withdrawn(r: Registry, s: Registry) {
    && s.links == r.links && s.paths == r.paths && s.policies == r.policies
    && ClustersLowered(r.clusters, s.clusters) && ContractsWithdrawn(r.contracts, s.contracts)
    && GrantsWithdrawn(r.grants, s.grants) && ReservationsReleased(r.reservations, s.reservations)
  }

  lemma LoweredTransitive(a: map<Name, Cluster>, b: map<Name, Cluster>, c: map<Name, Cluster>)
    requires ClustersLowered(a, b) && ClustersLowered(b, c)
    ensures ClustersLowered(a, c)
  {
    forall k | k in a ensures ClusterLowered(a[k], c[k]) {
      assert ClusterLowered(a[k], b[k]) && ClusterLowered(b[k], c[k]);
    }
  }

  lemma WithdrawnTransitive(r: Registry, s: Registry, t: Registry)
    requires Withdrawn(r, s) && Withdrawn(s, t)
    ensures Withdrawn(r, t)
  {
    LoweredTransitive(r.clusters, s.clusters, t.clusters);
    forall c | c in r.contracts ensures ContractWithdrawnOnly(r.contracts[c], t.contracts[c]) {
      assert ContractWithdrawnOnly(r.contracts[c], s.contracts[c])
             && ContractWithdrawnOnly(s.contracts[c], t.contracts[c]);
    }
    forall g | g in r.grants ensures GrantWithdrawnOnly(r.grants[g], t.grants[g]) {
      assert GrantWithdrawnOnly(r.grants[g], s.grants[g]) && GrantWithdrawnOnly(s.grants[g], t.grants[g]);
    }
    forall k | k in r.reservations ensures ReservationReleasedOnly(r.reservations[k], t.reservations[k]) {
      assert ReservationReleasedOnly(r.reservations[k], s.reservations[k])
          && ReservationReleasedOnly(s.reservations[k], t.reservations[k]);
    }
  }

  lemma WithdrawnReflexive(r: Registry)
    ensures Withdrawn(r, r)
  {
  }

  lemma ReturnLowers(clusters: map<Name, Cluster>, e: Name, amount: nat)
    ensures ClustersLowered(clusters, ReturnCapacity(clusters, e, amount))
  {
    forall c | c in clusters ensures ClusterLowered(clusters[c], ReturnCapacity(clusters, e, amount)[c]) {
      assert ClusterLowered(clusters[c], ReturnTo(clusters[c], e, amount));
    }
  }

  lemma StepWithdraws(r: Registry, trigger: FenceTrigger, a: FenceAction, at: Time)
    ensures Withdrawn(r, Step(r, trigger, a, at))
  {
    WithdrawnReflexive(r);
    if Releases(r.reservations, a) {
      ReturnLowers(r.clusters, r.reservations[a.reservation].endpoint, r.reservations[a.reservation].amount);
    }
    assert GrantsWithdrawn(r.grants, GrantsStep(r.grants, a));
    assert ContractsWithdrawn(r.contracts, ContractsStep(r.contracts, trigger, a, at));
    assert ReservationsReleased(r.reservations, ReservationsStep(r.reservations, a));
  }

  lemma AuditedParts(r: Registry, tally: Tally, at: Time)
    ensures var t := Audited(r, tally, at).reg; t == r.(audit := t.audit)
  {
  }

  lemma ActionParts(s: Applied, trigger: FenceTrigger, a: FenceAction, at: Time)
    ensures var t := ApplyAction(s, trigger, a, at).reg; t == Step(s.reg, trigger, a, at).(audit := t.audit)
  {
    AuditedParts(Step(s.reg, trigger, a, at), Count(s.tally, s.reg, a), at);
  }

  /** Fencing only ever withdraws: for every plan, complete or stopped midway. */
  lemma {:induction false} PlanWithdraws(r: Registry, trigger: FenceTrigger, actions: seq<FenceAction>, at: Time)
    ensures Withdrawn(r, ApplyPlan(r, trigger, actions, at).reg)
    decreases |actions|
  {
    if actions != [] {
      var before := actions[..|actions| - 1];
      PlanWithdraws(r, trigger, before, at);
      var s := ApplyPlan(r, trigger, before, at);
      if s.ok {
        StepWithdraws(s.reg, trigger, actions[|actions| - 1], at);
        ActionParts(s, trigger, actions[|actions| - 1], at);
        WithdrawnTransitive(r, s.reg, ApplyPlan(r, trigger, actions, at).reg);
      }
    }
  }
}
