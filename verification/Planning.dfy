/** Fence plans: `plan_fence` (src/runtime/engine.cpp) and `fence_recovered_state`
    (src/runtime/fencing.cpp), and what is left once they have been applied. */
module Planning {
  import opened Model
  import opened Engine
  import opened Fencing
  import opened FenceEffects
  import opened FenceReach

  // ---- what a plan must contain ----

  predicate LiveGrantOf(r: Registry, c: Uuid, g: Uuid) {
    g in r.grants && r.grants[g].contract == c && r.grants[g].Live()
  }

  predicate OpenReservationOf(r: Registry, c: Uuid, k: Uuid) {
    && k in r.reservations && !r.reservations[k].released
    && r.reservations[k].grant in r.grants && r.grants[r.reservations[k].grant].contract == c
  }

  /** The actions that withdraw one contract. */
  ghost predicate PlannedFor(r: Registry, c: Uuid, a: FenceAction)
    requires c in r.contracts
  {
    match a
    case FenceGrant(g) => LiveGrantOf(r, c, g)
    case ReleaseReservation(k) => OpenReservationOf(r, c, k)
    case FenceContract(d) =>
      d == c && r.contracts[c].state != ContractWithdrawn && exists g :: LiveGrantOf(r, c, g)
  }

  ghost predicate Planned(r: Registry, cluster: Name, a: FenceAction) {
    exists c <- r.contracts :: r.contracts[c].Names(cluster) && PlannedFor(r, c, a)
  }

  /** A reservation is released only after its live grant has been fenced. */
  predicate GrantsLead(r: Registry, actions: seq<FenceAction>) {
    forall i | 0 <= i < |actions| && actions[i].ReleaseReservation? ::
      var k := actions[i].reservation;
      k in r.reservations && r.reservations[k].grant in r.grants && r.grants[r.reservations[k].grant].Usable() ==>
        FenceGrant(r.reservations[k].grant) in actions[..i]
  }

  /** Sound always; complete as long as the plan stayed within its bound. */
  ghost predicate IsFencePlan(r: Registry, cluster: Name, actions: seq<FenceAction>) {
    && (forall a <- actions :: Planned(r, cluster, a))
    && (|actions| <= MAX_FENCE_PLAN_ENTRIES ==> forall a :: Planned(r, cluster, a) ==> a in actions)
    && GrantsLead(r, actions)
  }

  // ---- plan_fence ----

  lemma LeadsExtend(r: Registry, actions: seq<FenceAction>, more: seq<FenceAction>)
    requires GrantsLead(r, actions) && GrantsLead(r, more)
    ensures GrantsLead(r, actions + more)
  {
    var all := actions + more;
    forall i | 0 <= i < |all| && all[i].ReleaseReservation?
      ensures var k := all[i].reservation;
              k in r.reservations && r.reservations[k].grant in r.grants && r.grants[r.reservations[k].grant].Usable()
              ==> FenceGrant(r.reservations[k].grant) in all[..i]
    {
      if i < |actions| {
        assert all[..i] == actions[..i];
      } else {
        assert more[i - |actions|] == all[i];
        assert all[..i] == actions + more[..i - |actions|];
      }
    }
  }

  /** The actions for one grant: fence it when live, then release what it holds. */
  method PlanGrant(r: Registry, g: Uuid) returns (actions: seq<FenceAction>)
    requires g in r.grants
    ensures forall a :: a in actions <==>
              || (a == FenceGrant(g) && r.grants[g].Live())
              || (a.ReleaseReservation? && a.reservation in r.reservations
                  && r.reservations[a.reservation].grant == g && !r.reservations[a.reservation].released)
    ensures GrantsLead(r, actions)
  {
    actions := if r.grants[g].Live() then [FenceGrant(g)] else [];
    var todo := r.reservations.Keys;
    while todo != {}
      invariant todo <= r.reservations.Keys
      invariant r.grants[g].Live() ==> |actions| > 0 && actions[0] == FenceGrant(g)
      invariant forall a :: a in actions <==>
                  || (a == FenceGrant(g) && r.grants[g].Live())
                  || (a.ReleaseReservation? && a.reservation in r.reservations.Keys - todo
                      && r.reservations[a.reservation].grant == g && !r.reservations[a.reservation].released)
      decreases |todo|
    {
      var k :| k in todo;
      todo := todo - {k};
      if r.reservations[k].grant == g && !r.reservations[k].released {
        actions := actions + [ReleaseReservation(k)];
      }
    }
    forall i | 0 <= i < |actions| && actions[i].ReleaseReservation?
      ensures r.grants[g].Usable() ==> FenceGrant(g) in actions[..i]
    {
      if r.grants[g].Usable() { assert actions[..i][0] == FenceGrant(g); }
    }
    assert forall i | 0 <= i < |actions| && actions[i].ReleaseReservation? ::
        r.reservations[actions[i].reservation].grant == g by {
      forall i | 0 <= i < |actions| && actions[i].ReleaseReservation?
        ensures r.reservations[actions[i].reservation].grant == g
      {
        assert actions[i] in actions;
      }
    }
  }

  /** The actions for one contract, its grants in any order. */
  method PlanContract(r: Registry, c: Uuid) returns (actions: seq<FenceAction>)
    requires c in r.contracts
    ensures forall a :: a in actions <==> PlannedFor(r, c, a)
    ensures GrantsLead(r, actions)
  {
    actions := [];
    var affected := false;
    var todo := r.grants.Keys;
    while todo != {}
      invariant todo <= r.grants.Keys && GrantsLead(r, actions)
      invariant affected ==> exists g :: LiveGrantOf(r, c, g)
      invariant forall g <- r.grants.Keys - todo :: LiveGrantOf(r, c, g) ==> affected
      invariant forall a :: a in actions <==>
                  || (a.FenceGrant? && a.grant in r.grants.Keys - todo && LiveGrantOf(r, c, a.grant))
                  || (a.ReleaseReservation? && OpenReservationOf(r, c, a.reservation)
                      && r.reservations[a.reservation].grant in r.grants.Keys - todo)
      decreases |todo|
    {
      var g :| g in todo;
      todo := todo - {g};
      if r.grants[g].contract == c {
        var more := PlanGrant(r, g);
        LeadsExtend(r, actions, more);
        actions := actions + more;
        assert r.grants[g].Live() ==> LiveGrantOf(r, c, g);
        affected := affected || r.grants[g].Live();
      }
    }
    assert r.grants.Keys - todo == r.grants.Keys;
    if affected && r.contracts[c].state != ContractWithdrawn {
      LeadsExtend(r, actions, [FenceContract(c)]);
      actions := actions + [FenceContract(c)];
    }
  }

  /** `plan_fence`, the contracts in any order; it stops after the contract that exceeds the bound. */
  method PlanFence(r: Registry, cluster: Name) returns (actions: seq<FenceAction>)
    ensures IsFencePlan(r, cluster, actions)
  {
    actions := [];
    var todo := r.contracts.Keys;
    while todo != {}
      invariant todo <= r.contracts.Keys && GrantsLead(r, actions)
      invariant forall a <- actions :: Planned(r, cluster, a)
      invariant forall c, a :: c in r.contracts.Keys - todo && r.contracts[c].Names(cluster) && PlannedFor(r, c, a)
                  ==> a in actions
      decreases |todo|
    {
      var c :| c in todo;
      todo := todo - {c};
      if r.contracts[c].Names(cluster) {
        var more := PlanContract(r, c);
        LeadsExtend(r, actions, more);
        actions := actions + more;
        if |actions| > MAX_FENCE_PLAN_ENTRIES { return; }
      }
    }
  }

  // ---- fence completeness ----

  predicate Involved(r: Registry, cluster: Name, g: Grant) {
    g.contract in r.contracts && r.contracts[g.contract].Names(cluster)
  }

  lemma PlannedGrant(r: Registry, cluster: Name, g: Uuid)
    requires g in r.grants
    ensures Planned(r, cluster, FenceGrant(g)) <==> Involved(r, cluster, r.grants[g]) && r.grants[g].Live()
  {
    if Involved(r, cluster, r.grants[g]) && r.grants[g].Live() {
      assert PlannedFor(r, r.grants[g].contract, FenceGrant(g));
    }
  }

  lemma PlannedReservation(r: Registry, cluster: Name, k: Uuid)
    requires k in r.reservations && !r.reservations[k].released && r.reservations[k].grant in r.grants
    requires Involved(r, cluster, r.grants[r.reservations[k].grant])
    ensures Planned(r, cluster, ReleaseReservation(k))
  {
    assert PlannedFor(r, r.grants[r.reservations[k].grant].contract, ReleaseReservation(k));
  }

  /** What a successfully applied plan within its bound leaves for the cluster. */
  predicate ClusterFenced(r: Registry, s: Registry, cluster: Name) {
    && s.contracts.Keys == r.contracts.Keys && s.grants.Keys == r.grants.Keys
    && s.reservations.Keys == r.reservations.Keys
    && (forall g <- s.grants :: Involved(s, cluster, s.grants[g]) ==> !s.grants[g].Live())
    && (forall k <- s.reservations ::
          s.reservations[k].grant in s.grants && Involved(s, cluster, s.grants[s.reservations[k].grant])
          ==> s.reservations[k].released)
    && (forall g <- s.grants :: !Involved(s, cluster, s.grants[g]) ==> s.grants[g] == r.grants[g])
    && (forall c <- s.contracts :: !s.contracts[c].Names(cluster) ==> s.contracts[c] == r.contracts[c])
  }

  lemma InvolvedStays(r: Registry, s: Registry, cluster: Name, g: Uuid)
    requires Withdrawn(r, s) && g in r.grants
    ensures Involved(s, cluster, s.grants[g]) <==> Involved(r, cluster, r.grants[g])
  {
    assert GrantWithdrawnOnly(r.grants[g], s.grants[g]);
    var c := r.grants[g].contract;
    if c in r.contracts { assert ContractWithdrawnOnly(r.contracts[c], s.contracts[c]); }
  }

  lemma GrantsFenced(r: Registry, trigger: FenceTrigger, cluster: Name, actions: seq<FenceAction>, at: Time, g: Uuid)
    requires IsFencePlan(r, cluster, actions) && |actions| <= MAX_FENCE_PLAN_ENTRIES
    requires ApplyPlan(r, trigger, actions, at).ok && g in r.grants
    ensures var s := ApplyPlan(r, trigger, actions, at).reg;
            && g in s.grants
            && (if Involved(s, cluster, s.grants[g]) then !s.grants[g].Live() else s.grants[g] == r.grants[g])
  {
    var s := ApplyPlan(r, trigger, actions, at).reg;
    PlanWithdraws(r, trigger, actions, at);
    InvolvedStays(r, s, cluster, g);
    PlannedGrant(r, cluster, g);
    PlanOnGrant(r, trigger, actions, at, g);
  }

  lemma ReservationsFenced(
      r: Registry, trigger: FenceTrigger, cluster: Name, actions: seq<FenceAction>, at: Time, k: Uuid)
    requires IsFencePlan(r, cluster, actions) && |actions| <= MAX_FENCE_PLAN_ENTRIES
    requires ApplyPlan(r, trigger, actions, at).ok && k in r.reservations && r.reservations[k].grant in r.grants
    ensures var s := ApplyPlan(r, trigger, actions, at).reg;
            && k in s.reservations && s.reservations[k].grant in s.grants
            && (Involved(s, cluster, s.grants[s.reservations[k].grant]) ==> s.reservations[k].released)
  {
    var s := ApplyPlan(r, trigger, actions, at).reg;
    PlanWithdraws(r, trigger, actions, at);
    PlanEffect(r, trigger, actions, at);
    assert ReservationReleasedOnly(r.reservations[k], s.reservations[k]);
    InvolvedStays(r, s, cluster, r.reservations[k].grant);
    if !r.reservations[k].released && Involved(r, cluster, r.grants[r.reservations[k].grant]) {
      PlannedReservation(r, cluster, k);
    }
  }

  /** A plan within its bound, whose lines the trail takes, withdraws the cluster and nothing else. */
  lemma FenceComplete(r: Registry, trigger: FenceTrigger, cluster: Name, actions: seq<FenceAction>, at: Time)
    requires IsFencePlan(r, cluster, actions) && |actions| <= MAX_FENCE_PLAN_ENTRIES
    requires HasTrailRoom(r, actions)
    ensures ClusterFenced(r, ApplyPlan(r, trigger, actions, at).reg, cluster)
  {
    var s := ApplyPlan(r, trigger, actions, at).reg;
    RunsToEnd(r, trigger, actions, at);
    PlanWithdraws(r, trigger, actions, at);
    forall g | g in s.grants
      ensures if Involved(s, cluster, s.grants[g]) then !s.grants[g].Live() else s.grants[g] == r.grants[g]
    {
      GrantsFenced(r, trigger, cluster, actions, at, g);
    }
    forall k | k in s.reservations && s.reservations[k].grant in s.grants
               && Involved(s, cluster, s.grants[s.reservations[k].grant])
      ensures s.reservations[k].released
    {
      assert ReservationReleasedOnly(r.reservations[k], s.reservations[k]);
      ReservationsFenced(r, trigger, cluster, actions, at, k);
    }
    forall c | c in s.contracts && !s.contracts[c].Names(cluster) ensures s.contracts[c] == r.contracts[c] {
      PlanEffect(r, trigger, actions, at);
      assert ContractWithdrawnOnly(r.contracts[c], s.contracts[c]);
      if FenceContract(c) in actions { assert Planned(r, cluster, FenceContract(c)); }
    }
  }

  /** After the fence no query is authorized over a contract that names the cluster. */
  lemma FencedClusterCarriesNothing(r: Registry, s: Registry, cluster: Name, q: Query, v: View, c: Uuid, g: Uuid)
    requires ClusterFenced(r, s, cluster) && Authorizes(s, q, v, c, g)
    ensures !s.contracts[c].Names(cluster)
  {
    AuthorizedGrant(s, q, v, c, g);
    assert Involved(s, cluster, s.grants[g]) ==> !s.grants[g].Live();
  }

  /** What an authorization rests on. */
  lemma AuthorizedGrant(r: Registry, q: Query, v: View, c: Uuid, g: Uuid)
    requires Authorizes(r, q, v, c, g)
    ensures c in r.contracts && g in r.grants && r.grants[g].contract == c
    ensures r.grants[g].Usable() && CheckConsents(r, r.contracts[c]) == Ok
    ensures CheckSelected(r, r.contracts[c], r.grants[g], q, v) == Ok
  {
    LatestUnique(r.grants, c, g, Latest(r.grants, c));
  }

  // ---- recovery ----

  predicate Historical(g: Grant) {
    g.state == GrantFenced || g.state == Aborted || g.state == GrantExpired || g.state == GrantWithdrawn
  }

  /** The plan of `fence_recovered_state`: every grant and reservation that is not yet historical. */
  ghost predicate IsRecoveryPlan(r: Registry, actions: seq<FenceAction>) {
    forall a :: a in actions <==>
      match a
      case FenceGrant(g) => g in r.grants && !Historical(r.grants[g])
      case ReleaseReservation(k) => k in r.reservations && !r.reservations[k].released
      case FenceContract(_) => false
  }

  predicate NoAuthority(r: Registry) {
    && (forall g <- r.grants :: !r.grants[g].Live())
    && (forall k <- r.reservations :: r.reservations[k].released)
  }

  /** Nothing dynamic survives a restart, whatever registry was recovered. */
  lemma RecoveryFencesAll(r: Registry, actions: seq<FenceAction>, at: Time)
    requires IsRecoveryPlan(r, actions) && HasTrailRoom(r, actions)
    ensures NoAuthority(ApplyPlan(r, CoordinatorReincarnation, actions, at).reg)
  {
    RunsToEnd(r, CoordinatorReincarnation, actions, at);
    PlanEffect(r, CoordinatorReincarnation, actions, at);
    forall g | g in r.grants ensures FenceGrant(g) in actions <==> !Historical(r.grants[g]) {}
    forall k | k in r.reservations ensures ReleaseReservation(k) in actions <==> !r.reservations[k].released {}
  }

  lemma NoAuthorityAuthorizesNothing(r: Registry, q: Query, v: View, c: Uuid, g: Uuid)
    requires NoAuthority(r)
    ensures !Authorizes(r, q, v, c, g)
  {
    if Authorizes(r, q, v, c, g) { AuthorizedGrant(r, q, v, c, g); }
  }
}
