/** The registry as the runtime changes it: `apply_fence_plan` and `release_reservation` update its
    maps in place (src/runtime/fencing.cpp). */
module LiveRegistries {
  import opened Model
  import opened Fencing
  import opened FenceReach

  class LiveRegistry {
    var clusters: map<Name, Cluster>
    const links: map<Name, Link>
    const paths: map<Name, Path>
    const policies: map<Name, PolicyRule>
    var contracts: map<Uuid, Contract>
    var grants: map<Uuid, Grant>
    var reservations: map<Uuid, Reservation>
    var audit: seq<Audit>

    constructor (r: Registry)
      ensures Contents() == r
    {
      clusters, links, paths, policies := r.clusters, r.links, r.paths, r.policies;
      contracts, grants, reservations, audit := r.contracts, r.grants, r.reservations, r.audit;
    }

    function Contents(): Registry
      reads this
    {
      Registry(clusters, links, paths, policies, contracts, grants, reservations, audit)
    }

    /** Marks the reservation released and returns its amount to every cluster declaring the endpoint. */
    method Release(k: Uuid)
      requires k in reservations && !reservations[k].released
      modifies this
      ensures reservations == old(reservations)[k := old(reservations)[k].(released := true)]
      ensures clusters == ReturnCapacity(old(clusters), old(reservations)[k].endpoint, old(reservations)[k].amount)
      ensures contracts == old(contracts) && grants == old(grants) && audit == old(audit)
    {
      var v := reservations[k];
      reservations := reservations[k := v.(released := true)];
      ghost var before := clusters;
      var todo := clusters.Keys;
      while todo != {}
        invariant todo <= before.Keys == clusters.Keys
        invariant forall c <- before :: clusters[c] == if c in todo then before[c]
                  else ReturnTo(before[c], v.endpoint, v.amount)
        invariant reservations == old(reservations)[k := v.(released := true)]
        invariant contracts == old(contracts) && grants == old(grants) && audit == old(audit)
        decreases |todo|
      {
        var c :| c in todo;
        todo := todo - {c};
        clusters := clusters[c := ReturnTo(clusters[c], v.endpoint, v.amount)];
      }
    }

    method AppendFenceAudit(at: Time, tally: Tally) returns (ok: bool)
      modifies this`audit
      ensures Applied(Contents(), tally, ok) == Audited(old(Contents()), tally, at)
    {
      var line := NextAudit(Contents(), at);
      ok := |audit| < MAX_AUDIT_RECORDS;
      if ok {
        audit := audit + [line];
      }
    }

    /** The record changes of one action. */
    method Change(trigger: FenceTrigger, a: FenceAction, at: Time)
      modifies this
      ensures Contents() == Step(old(Contents()), trigger, a, at)
    {
      match a {
        case FenceGrant(g) =>
          if g in grants && Fenceable(grants[g]) {
            grants := grants[g := grants[g].(state := GrantFenced)];
          }
        case FenceContract(c) =>
          if c in contracts && ContractFenceable(contracts[c]) {
            contracts := contracts[c := contracts[c].(state := FencedContractState(trigger), updatedAt := at)];
          }
        case ReleaseReservation(k) =>
          if k in reservations && !reservations[k].released {
            Release(k);
          }
      }
    }

    /** One action of the loop body of `apply_fence_plan`. */
    method Apply(trigger: FenceTrigger, a: FenceAction, at: Time, tally: Tally) returns (tally': Tally, ok: bool)
      modifies this
      ensures Applied(Contents(), tally', ok) == ApplyAction(Applied(old(Contents()), tally, true), trigger, a, at)
    {
      var bites := Bites(Contents(), a);
      tally' := Count(tally, Contents(), a);
      Change(trigger, a, at);
      ok := true;
      if bites && !a.ReleaseReservation? {
        ok := AppendFenceAudit(at, tally');
      }
    }

    /** `apply_fence_plan`: stops with the registry as it stands when the trail refuses a line. */
    method ApplyFencePlan(trigger: FenceTrigger, actions: seq<FenceAction>, at: Time) returns (outcome: Result<Tally>)
      modifies this
      ensures var s := ApplyPlan(old(Contents()), trigger, actions, at);
              Contents() == s.reg && outcome == if s.ok then Success(s.tally) else Failure(CapacityExceeded)
      ensures outcome.Success? <==> HasTrailRoom(old(Contents()), actions)
    {
      var tally := NO_TALLY;
      for i := 0 to |actions|
        invariant ApplyPlan(old(Contents()), trigger, actions[..i], at) == Applied(Contents(), tally, true)
      {
        ghost var before := Contents();
        var ok;
        assert actions[..i + 1][..i] == actions[..i];
        tally, ok := Apply(trigger, actions[i], at, tally);
        if !ok {
          StopsForGood(old(Contents()), trigger, actions, at, i + 1);
          RunsToEnd(old(Contents()), trigger, actions, at);
          return Failure(CapacityExceeded);
        }
      }
      assert actions[..|actions|] == actions;
      RunsToEnd(old(Contents()), trigger, actions, at);
      return Success(tally);
    }
  }
}
