/** What applying a fence plan achieves. */
module FenceEffects {
  import opened Model
  import opened Sums
  import opened Engine
  import opened Fencing

  // ---- the effect depends on the set of actions only ----

  function GrantsAfter(grants: map<Uuid, Grant>, actions: seq<FenceAction>): map<Uuid, Grant> {
    map g | g in grants ::
      if FenceGrant(g) in actions && Fenceable(grants[g]) then grants[g].(state := GrantFenced) else grants[g]
  }

  function ContractsAfter(contracts: map<Uuid, Contract>, trigger: FenceTrigger, actions: seq<FenceAction>, at: Time)
    : map<Uuid, Contract>
  {
    map c | c in contracts ::
      if FenceContract(c) in actions && ContractFenceable(contracts[c])
      then contracts[c].(state := FencedContractState(trigger), updatedAt := at) else contracts[c]
  }

  function ReservationsAfter(reservations: map<Uuid, Reservation>, actions: seq<FenceAction>): map<Uuid, Reservation> {
    map k | k in reservations ::
      if ReleaseReservation(k) in actions then reservations[k].(released := true) else reservations[k]
  }

  lemma MembersOf(actions: seq<FenceAction>, x: FenceAction)
    requires actions != []
    ensures x in actions <==> x in actions[..|actions| - 1] || x == actions[|actions| - 1]
  {
    assert actions == actions[..|actions| - 1] + [actions[|actions| - 1]];
  }

  lemma StepsExtend(r: Registry, trigger: FenceTrigger, actions: seq<FenceAction>, at: Time)
    requires actions != []
    ensures var before, a := actions[..|actions| - 1], actions[|actions| - 1];
            && GrantsAfter(r.grants, actions) == GrantsStep(GrantsAfter(r.grants, before), a)
            && ContractsAfter(r.contracts, trigger, actions, at)
               == ContractsStep(ContractsAfter(r.contracts, trigger, before, at), trigger, a, at)
            && ReservationsAfter(r.reservations, actions)
               == ReservationsStep(ReservationsAfter(r.reservations, before), a)
  {
    var before, a := actions[..|actions| - 1], actions[|actions| - 1];
    forall x ensures x in actions <==> x in before || x == a { MembersOf(actions, x); }
  }

  /** A plan that runs to its end withdraws exactly what it names. */
  lemma {:induction false} PlanEffect(r: Registry, trigger: FenceTrigger, actions: seq<FenceAction>, at: Time)
    requires ApplyPlan(r, trigger, actions, at).ok
    ensures ApplyPlan(r, trigger, actions, at).reg.grants == GrantsAfter(r.grants, actions)
    ensures ApplyPlan(r, trigger, actions, at).reg.contracts == ContractsAfter(r.contracts, trigger, actions, at)
    ensures ApplyPlan(r, trigger, actions, at).reg.reservations == ReservationsAfter(r.reservations, actions)
    decreases |actions|
  {
    if actions == [] {
    } else {
      var before, a := actions[..|actions| - 1], actions[|actions| - 1];
      PlanEffect(r, trigger, before, at);
      ActionParts(ApplyPlan(r, trigger, before, at), trigger, a, at);
      StepsExtend(r, trigger, actions, at);
    }
  }

  lemma PlanOnGrant(r: Registry, trigger: FenceTrigger, actions: seq<FenceAction>, at: Time, g: Uuid)
    requires ApplyPlan(r, trigger, actions, at).ok && g in r.grants
    ensures var s := ApplyPlan(r, trigger, actions, at).reg;
            && g in s.grants
            && s.grants[g] == if FenceGrant(g) in actions && Fenceable(r.grants[g])
                              then r.grants[g].(state := GrantFenced) else r.grants[g]
  {
    PlanEffect(r, trigger, actions, at);
  }

  // ---- capacity: what the counters hold above the ledger never changes ----

  function HeldFor(e: Name): Reservation -> nat {
    (v: Reservation) => if !v.released && v.endpoint == e then v.amount else 0
  }

  /** The unreleased reservations against an endpoint. */
  ghost function Held(reservations: map<Uuid, Reservation>, e: Name): nat {
    Sum(reservations, HeldFor(e))
  }

  predicate Declares(r: Registry, c: Name, e: Name) {
    c in r.clusters && e in r.clusters[c].endpoints
  }

  function Counter(r: Registry, c: Name, e: Name): nat
    requires Declares(r, c, e)
  {
    r.clusters[c].endpoints[e].reserved
  }

  /** Every counter covers the reservations recorded against its endpoint. */
  ghost predicate Covered(r: Registry) {
    forall c, e :: Declares(r, c, e) ==> Held(r.reservations, e) <= Counter(r, c, e)
  }

  lemma LoweredDeclares(r: Registry, s: Registry, c: Name, e: Name)
    requires ClustersLowered(r.clusters, s.clusters)
    ensures Declares(r, c, e) <==> Declares(s, c, e)
  {
    if c in r.clusters { assert ClusterLowered(r.clusters[c], s.clusters[c]); }
  }

  /** With a covering counter the clamp to zero in `release_reservation` is never taken. */
  lemma StepKeepsGap(r: Registry, trigger: FenceTrigger, a: FenceAction, at: Time, c: Name, e: Name)
    requires Declares(r, c, e) && Held(r.reservations, e) <= Counter(r, c, e)
    ensures var s := Step(r, trigger, a, at);
            && Declares(s, c, e)
            && Counter(s, c, e) - Held(s.reservations, e) == Counter(r, c, e) - Held(r.reservations, e)
    ensures Releases(r.reservations, a) && e == r.reservations[a.reservation].endpoint ==>
              Counter(Step(r, trigger, a, at), c, e) == Counter(r, c, e) - r.reservations[a.reservation].amount
  {
    if Releases(r.reservations, a) {
      var v := r.reservations[a.reservation];
      SumUpdate(r.reservations, HeldFor(e), a.reservation, v.(released := true));
      SumRemove(r.reservations, HeldFor(e), a.reservation);
      assert ReturnCapacity(r.clusters, v.endpoint, v.amount)[c] == ReturnTo(r.clusters[c], v.endpoint, v.amount);
    }
  }

  /** Counter minus ledger is the same before and after every plan, complete or stopped midway. */
  lemma {:induction false} PlanKeepsGap(
      r: Registry, trigger: FenceTrigger, actions: seq<FenceAction>, at: Time, c: Name, e: Name)
    requires Declares(r, c, e) && Held(r.reservations, e) <= Counter(r, c, e)
    ensures var s := ApplyPlan(r, trigger, actions, at).reg;
            && Declares(s, c, e)
            && Counter(s, c, e) - Held(s.reservations, e) == Counter(r, c, e) - Held(r.reservations, e)
    decreases |actions|
  {
    if actions != [] {
      var before, a := actions[..|actions| - 1], actions[|actions| - 1];
      PlanKeepsGap(r, trigger, before, at, c, e);
      var s := ApplyPlan(r, trigger, before, at);
      if s.ok {
        StepKeepsGap(s.reg, trigger, a, at, c, e);
        ActionParts(s, trigger, a, at);
      }
    }
  }

  lemma PlanKeepsCovered(r: Registry, trigger: FenceTrigger, actions: seq<FenceAction>, at: Time)
    requires Covered(r)
    ensures Covered(ApplyPlan(r, trigger, actions, at).reg)
  {
    var s := ApplyPlan(r, trigger, actions, at).reg;
    PlanWithdraws(r, trigger, actions, at);
    forall c, e | Declares(s, c, e) ensures Held(s.reservations, e) <= Counter(s, c, e) {
      LoweredDeclares(r, s, c, e);
      PlanKeepsGap(r, trigger, actions, at, c, e);
    }
  }

  /** Unreleased reservations are against declared endpoints. */
  predicate LedgerDeclared(r: Registry) {
    forall k <- r.reservations :: !r.reservations[k].released ==>
      exists c <- r.clusters :: r.reservations[k].endpoint in r.clusters[c].endpoints
  }

  lemma WithdrawnKeepsShape(r: Registry, s: Registry)
    requires Withdrawn(r, s)
    ensures UniqueOwners(r) ==> UniqueOwners(s)
    ensures LedgerDeclared(r) ==> LedgerDeclared(s)
  {
    forall c, e ensures Declares(r, c, e) <==> Declares(s, c, e) { LoweredDeclares(r, s, c, e); }
    if UniqueOwners(r) {
      forall c, d, e | c in s.clusters && d in s.clusters && e in s.clusters[c].endpoints
        && e in s.clusters[d].endpoints
        ensures c == d
      {
        assert Declares(s, c, e) && Declares(s, d, e);
        assert Declares(r, c, e) && Declares(r, d, e);
      }
    }
    if LedgerDeclared(r) {
      forall k | k in s.reservations && !s.reservations[k].released
        ensures exists c <- s.clusters :: s.reservations[k].endpoint in s.clusters[c].endpoints
      {
        assert ReservationReleasedOnly(r.reservations[k], s.reservations[k]);
        var c :| c in r.clusters && r.reservations[k].endpoint in r.clusters[c].endpoints;
        assert Declares(r, c, r.reservations[k].endpoint);
        assert Declares(s, c, s.reservations[k].endpoint);
      }
    }
  }
}
