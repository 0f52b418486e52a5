/** What `apply_fence_plan` reports as released, against what the endpoint counters really gave back. */
module FenceTally {
  import opened Model
  import opened Sums
  import opened Fencing
  import opened FenceEffects
  import opened FenceReach

  function EndpointCounter(): Endpoint -> nat { (e: Endpoint) => e.reserved }

  ghost function ClusterCounters(): Cluster -> nat { (c: Cluster) => Sum(c.endpoints, EndpointCounter()) }

  /** Everything the endpoint counters hold. */
  ghost function TotalReserved(r: Registry): nat {
    Sum(r.clusters, ClusterCounters())
  }

  function DeclaredEndpoints(r: Registry): set<Name> {
    set c, e | c in r.clusters && e in r.clusters[c].endpoints :: e
  }

  function StrayFor(declared: set<Name>): Reservation -> nat {
    (v: Reservation) => if !v.released && v.endpoint !in declared then v.amount else 0
  }

  /** The unreleased reservations against endpoints that no cluster declares: no counter holds them. */
  ghost function Stray(reservations: map<Uuid, Reservation>, declared: set<Name>): nat {
    Sum(reservations, StrayFor(declared))
  }

  // ---- one action ----

  lemma ReturnIsOneUpdate(r: Registry, o: Name, e: Name, amount: nat)
    requires UniqueOwners(r) && Declares(r, o, e)
    ensures ReturnCapacity(r.clusters, e, amount) == r.clusters[o := ReturnTo(r.clusters[o], e, amount)]
  {
  }

  lemma ReturnLowersTotal(r: Registry, o: Name, e: Name, amount: nat)
    requires UniqueOwners(r) && Declares(r, o, e) && amount <= Counter(r, o, e)
    ensures Sum(ReturnCapacity(r.clusters, e, amount), ClusterCounters()) + amount == TotalReserved(r)
  {
    ReturnIsOneUpdate(r, o, e, amount);
    var c := r.clusters[o];
    var lowered := c.endpoints[e].(reserved := Minus(c.endpoints[e].reserved, amount));
    SumUpdate(c.endpoints, EndpointCounter(), e, lowered);
    SumUpdate(r.clusters, ClusterCounters(), o, ReturnTo(c, e, amount));
  }

  lemma ReturnToNobody(r: Registry, e: Name, amount: nat)
    requires e !in DeclaredEndpoints(r)
    ensures ReturnCapacity(r.clusters, e, amount) == r.clusters
  {
    forall c | c in r.clusters ensures ReturnTo(r.clusters[c], e, amount) == r.clusters[c] {
      assert e in r.clusters[c].endpoints ==> e in DeclaredEndpoints(r);
    }
  }

  /** A release lowers the counters by its amount, or by nothing when nobody declares the endpoint. */
  lemma ReleaseLowersTotal(r: Registry, k: Uuid)
    requires UniqueOwners(r) && Covered(r) && k in r.reservations && !r.reservations[k].released
    ensures var v := r.reservations[k];
            Sum(ReturnCapacity(r.clusters, v.endpoint, v.amount), ClusterCounters())
            + (if v.endpoint in DeclaredEndpoints(r) then v.amount else 0) == TotalReserved(r)
  {
    var v := r.reservations[k];
    if v.endpoint in DeclaredEndpoints(r) {
      var o :| o in r.clusters && v.endpoint in r.clusters[o].endpoints;
      assert Declares(r, o, v.endpoint);
      SumRemove(r.reservations, HeldFor(v.endpoint), k);
      ReturnLowersTotal(r, o, v.endpoint, v.amount);
    } else {
      ReturnToNobody(r, v.endpoint, v.amount);
    }
  }

  lemma StepTally(r: Registry, trigger: FenceTrigger, a: FenceAction, at: Time, tally: Tally)
    requires UniqueOwners(r) && Covered(r)
    ensures var s, d := Step(r, trigger, a, at), DeclaredEndpoints(r);
            Count(tally, r, a).capacityReleased + TotalReserved(s) + Stray(s.reservations, d)
            == tally.capacityReleased + TotalReserved(r) + Stray(r.reservations, d)
  {
    if Releases(r.reservations, a) {
      var v, d := r.reservations[a.reservation], DeclaredEndpoints(r);
      SumUpdate(r.reservations, StrayFor(d), a.reservation, v.(released := true));
      ReleaseLowersTotal(r, a.reservation);
    }
  }

  // ---- whole plans ----

  lemma PlanKeepsDeclared(r: Registry, trigger: FenceTrigger, actions: seq<FenceAction>, at: Time)
    ensures var s := ApplyPlan(r, trigger, actions, at).reg;
            && DeclaredEndpoints(s) == DeclaredEndpoints(r) && (UniqueOwners(r) ==> UniqueOwners(s))
            && (Covered(r) ==> Covered(s))
  {
    var s := ApplyPlan(r, trigger, actions, at).reg;
    PlanWithdraws(r, trigger, actions, at);
    WithdrawnKeepsShape(r, s);
    if Covered(r) { PlanKeepsCovered(r, trigger, actions, at); }
    forall e ensures e in DeclaredEndpoints(s) <==> e in DeclaredEndpoints(r) {
      SameDeclared(r, s, e);
      SameDeclared(s, r, e);
    }
  }

  lemma SameDeclared(r: Registry, s: Registry, e: Name)
    requires ClustersLowered(r.clusters, s.clusters) || ClustersLowered(s.clusters, r.clusters)
    ensures e in DeclaredEndpoints(r) ==> e in DeclaredEndpoints(s)
  {
    if e in DeclaredEndpoints(r) {
      var c :| c in r.clusters && e in r.clusters[c].endpoints;
      assert Declares(r, c, e);
      if ClustersLowered(r.clusters, s.clusters) { LoweredDeclares(r, s, c, e); } else { LoweredDeclares(s, r, c, e); }
      assert Declares(s, c, e);
    }
  }

  lemma ActionTally(s: Applied, trigger: FenceTrigger, a: FenceAction, at: Time)
    requires UniqueOwners(s.reg) && Covered(s.reg)
    ensures var t, d := ApplyAction(s, trigger, a, at), DeclaredEndpoints(s.reg);
            t.tally.capacityReleased + TotalReserved(t.reg) + Stray(t.reg.reservations, d)
            == s.tally.capacityReleased + TotalReserved(s.reg) + Stray(s.reg.reservations, d)
  {
    StepTally(s.reg, trigger, a, at, s.tally);
    ActionParts(s, trigger, a, at);
  }

  /** For every plan: what is reported as released is what the counters gave back and what was released
      without any counter holding it. */
  lemma {:induction false} TallyWithStray(r: Registry, trigger: FenceTrigger, actions: seq<FenceAction>, at: Time)
    requires UniqueOwners(r) && Covered(r)
    ensures var s, d := ApplyPlan(r, trigger, actions, at), DeclaredEndpoints(r);
            s.tally.capacityReleased + TotalReserved(s.reg) + Stray(s.reg.reservations, d)
            == TotalReserved(r) + Stray(r.reservations, d)
    decreases |actions|
  {
    if actions != [] {
      var before, a := actions[..|actions| - 1], actions[|actions| - 1];
      TallyWithStray(r, trigger, before, at);
      PlanKeepsDeclared(r, trigger, before, at);
      ActionTally(ApplyPlan(r, trigger, before, at), trigger, a, at);
    }
  }

  // ---- exactly when the report is the counters' decrease ----

  /** The action at `i` is reached and releases a reservation of some amount that no counter holds. */
  predicate ReleasesStray(r: Registry, actions: seq<FenceAction>, i: nat) {
    && FirstBite(r, actions, i) && actions[i].ReleaseReservation? && HasTrailRoom(r, actions[..i])
    && r.reservations[actions[i].reservation].amount > 0
    && r.reservations[actions[i].reservation].endpoint !in DeclaredEndpoints(r)
  }

  predicate AllCounted(r: Registry, actions: seq<FenceAction>) {
    forall i: nat | i < |actions| :: !ReleasesStray(r, actions, i)
  }

  /** A reservation the plan released was reached by one of its actions. */
  lemma ReleasedIsReached(
      r: Registry, trigger: FenceTrigger, actions: seq<FenceAction>, at: Time, k: Uuid)
    returns (i: nat)
    requires k in r.reservations && !r.reservations[k].released
    requires var s := ApplyPlan(r, trigger, actions, at).reg; k in s.reservations && s.reservations[k].released
    ensures FirstBite(r, actions, i) && actions[i] == ReleaseReservation(k) && HasTrailRoom(r, actions[..i])
  {
    var x := ReleaseReservation(k);
    if x !in actions { UnnamedUntouched(r, trigger, actions, at, x); }
    i := FirstOccurrence(actions, x);
    if !HasTrailRoom(r, actions[..i]) { UnreachedStillBites(r, trigger, actions, at, i); }
  }

  lemma CountedKeepsStray(r: Registry, trigger: FenceTrigger, actions: seq<FenceAction>, at: Time)
    requires AllCounted(r, actions)
    ensures var s, d := ApplyPlan(r, trigger, actions, at).reg, DeclaredEndpoints(r);
            Stray(s.reservations, d) == Stray(r.reservations, d)
  {
    var s, d := ApplyPlan(r, trigger, actions, at).reg, DeclaredEndpoints(r);
    PlanWithdraws(r, trigger, actions, at);
    forall k | k in r.reservations ensures StrayFor(d)(s.reservations[k]) == StrayFor(d)(r.reservations[k]) {
      assert ReservationReleasedOnly(r.reservations[k], s.reservations[k]);
      if !r.reservations[k].released && s.reservations[k].released {
        var i := ReleasedIsReached(r, trigger, actions, at, k);
        assert !ReleasesStray(r, actions, i);
      }
    }
    SumMonotone(s.reservations, StrayFor(d), r.reservations, StrayFor(d));
    SumMonotone(r.reservations, StrayFor(d), s.reservations, StrayFor(d));
  }

  lemma StrayIsLost(r: Registry, trigger: FenceTrigger, actions: seq<FenceAction>, at: Time, i: nat)
    requires ReleasesStray(r, actions, i)
    ensures var s, d := ApplyPlan(r, trigger, actions, at).reg, DeclaredEndpoints(r);
            Stray(s.reservations, d) < Stray(r.reservations, d)
  {
    var s, d, k := ApplyPlan(r, trigger, actions, at).reg, DeclaredEndpoints(r), actions[i].reservation;
    PlanWithdraws(r, trigger, actions, at);
    ReachedIsWithdrawn(r, trigger, actions, at, i);
    forall j | j in r.reservations ensures StrayFor(d)(s.reservations[j]) <= StrayFor(d)(r.reservations[j]) {
      assert ReservationReleasedOnly(r.reservations[j], s.reservations[j]);
    }
    SumBelow(s.reservations, r.reservations, StrayFor(d), k);
  }

  /** `capacity_released` is the total decrease of the counters exactly when no action that is reached releases
      a reservation against an endpoint nobody declares. */
  lemma TallyIsCounterDecrease(r: Registry, trigger: FenceTrigger, actions: seq<FenceAction>, at: Time)
    requires UniqueOwners(r) && Covered(r)
    ensures var s := ApplyPlan(r, trigger, actions, at);
            s.tally.capacityReleased + TotalReserved(s.reg) == TotalReserved(r) <==> AllCounted(r, actions)
  {
    TallyWithStray(r, trigger, actions, at);
    if AllCounted(r, actions) {
      CountedKeepsStray(r, trigger, actions, at);
    } else {
      var i: nat :| i < |actions| && ReleasesStray(r, actions, i);
      StrayIsLost(r, trigger, actions, at, i);
    }
  }

  /** So it always is when every unreleased reservation is against a declared endpoint. */
  lemma DeclaredIsCounted(r: Registry, actions: seq<FenceAction>)
    requires LedgerDeclared(r)
    ensures AllCounted(r, actions)
  {
    forall i: nat | i < |actions| && FirstBite(r, actions, i) && actions[i].ReleaseReservation?
      ensures r.reservations[actions[i].reservation].endpoint in DeclaredEndpoints(r)
    {
      assert !r.reservations[actions[i].reservation].released;
    }
  }
}
