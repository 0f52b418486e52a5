/** The coordinator as the runtime changes it: handlers that edit the registry, the sessions and the pending
    flows in place (src/runtime/coordinator.cpp), each proved against its function. */
module LiveCoordinators {
  import opened Model
  import opened Engine
  import opened Fencing
  import opened FenceReach
  import opened Planning
  import opened Coordination
  import opened LiveRegistries

  predicate Revoked(r: Registry, grants: set<Uuid>, k: Uuid) {
    k in r.reservations && !r.reservations[k].released && r.reservations[k].grant in grants
  }

  method FenceEach(grants: set<Uuid>) returns (actions: seq<FenceAction>)
    ensures forall a :: a in actions <==> a.FenceGrant? && a.grant in grants
  {
    actions := [];
    var todo := grants;
    while todo != {}
      invariant todo <= grants
      invariant forall a :: a in actions <==> a.FenceGrant? && a.grant in grants - todo
      decreases |todo|
    {
      var g :| g in todo;
      todo := todo - {g};
      actions := actions + [FenceGrant(g)];
    }
    assert grants - todo == grants;
  }

  method ReleaseEach(r: Registry, grants: set<Uuid>) returns (actions: seq<FenceAction>)
    ensures forall a :: a in actions <==> a.ReleaseReservation? && Revoked(r, grants, a.reservation)
  {
    actions := [];
    var todo := r.reservations.Keys;
    while todo != {}
      invariant todo <= r.reservations.Keys
      invariant forall a :: a in actions <==>
                a.ReleaseReservation? && a.reservation !in todo && Revoked(r, grants, a.reservation)
      decreases |todo|
    {
      var k :| k in todo;
      todo := todo - {k};
      if Revoked(r, grants, k) {
        actions := actions + [ReleaseReservation(k)];
      }
    }
  }

  /** The plan that withdraws a set of grants: the grants first, then what they hold. */
  method PlanRevocation(r: Registry, grants: set<Uuid>) returns (actions: seq<FenceAction>)
    ensures IsRevocationPlan(r, grants, actions)
  {
    var fences := FenceEach(grants);
    var releases := ReleaseEach(r, grants);
    actions := fences + releases;
    FencesLead(r, grants, fences, releases);
  }

  lemma FencesLead(r: Registry, grants: set<Uuid>, fences: seq<FenceAction>, releases: seq<FenceAction>)
    requires forall a :: a in fences <==> a.FenceGrant? && a.grant in grants
    requires forall a :: a in releases <==> a.ReleaseReservation? && Revoked(r, grants, a.reservation)
    ensures GrantsLead(r, fences + releases)
  {
    var actions := fences + releases;
    assert forall j | 0 <= j < |fences| :: fences[j] in fences && fences[j].FenceGrant?;
    forall i | 0 <= i < |actions| && actions[i].ReleaseReservation?
      ensures actions[i].reservation in r.reservations
      ensures FenceGrant(r.reservations[actions[i].reservation].grant) in actions[..i]
    {
      assert actions[i] in releases;
      assert actions[..i] == fences + releases[..i - |fences|];
      assert FenceGrant(r.reservations[actions[i].reservation].grant) in fences;
    }
  }

  method ReleaseAll(r: Registry) returns (actions: seq<FenceAction>)
    ensures forall a :: a in actions <==>
            a.ReleaseReservation? && a.reservation in r.reservations && !r.reservations[a.reservation].released
  {
    actions := [];
    var todo := r.reservations.Keys;
    while todo != {}
      invariant todo <= r.reservations.Keys
      invariant forall a :: a in actions <==> a.ReleaseReservation? && a.reservation in r.reservations.Keys - todo
                                              && !r.reservations[a.reservation].released
      decreases |todo|
    {
      var k :| k in todo;
      todo := todo - {k};
      if !r.reservations[k].released {
        actions := actions + [ReleaseReservation(k)];
      }
    }
    assert r.reservations.Keys - todo == r.reservations.Keys;
  }

  /** `fence_recovered_state`: plans for everything dynamic and applies the plan. */
  method FenceRecovered(recovered: Registry, now: Time) returns (reg: Registry, ok: bool, ghost plan: seq<FenceAction>)
    ensures IsRecoveryPlan(recovered, plan)
    ensures var s := ApplyPlan(recovered, CoordinatorReincarnation, plan, now); reg == s.reg && ok == s.ok
    ensures (ok <==> HasTrailRoom(recovered, plan)) && (ok ==> NoAuthority(reg))
  {
    var fences := FenceEach(set g | g in recovered.grants && !Historical(recovered.grants[g]));
    var releases := ReleaseAll(recovered);
    plan := fences + releases;
    var live := new LiveRegistry(recovered);
    var outcome := live.ApplyFencePlan(CoordinatorReincarnation, fences + releases, now);
    reg, ok := live.Contents(), outcome.Success?;
    RunsToEnd(recovered, CoordinatorReincarnation, plan, now);
    if ok { RecoveryFencesAll(recovered, plan, now); }
  }

  /** The plan of a handshake: the complete plan for the registry with that record, or no plan. */
  ghost predicate PlannedForHello(r: Registry, h: Hello, plan: seq<FenceAction>) {
    match RecordToFence(r, h)
    case Some(c) => IsFencePlan(WithCluster(r, h.cluster, c), h.cluster, plan)
    case None => plan == []
  }

  /** The grants outside `todo` are assessed, and those among them to be withdrawn are in `fence`. */
  ghost predicate Partway(
      r: Registry, session: Session, entries: seq<StatusEntry>, grants: map<Uuid, Grant>, fence: set<Uuid>,
      todo: set<Uuid>)
  {
    && todo <= grants.Keys == r.grants.Keys && fence == ToFence(r, session, entries) - todo
    && forall g <- grants :: grants[g] == if g in todo then r.grants[g] else AssessAll(r, session, entries)[g]
  }

  function Withdraws(a: Assessment, g: Uuid): set<Uuid> {
    if a == MustFence || a == Lost then {g} else {}
  }

  lemma AssessesOne(
      r: Registry, session: Session, entries: seq<StatusEntry>, grants: map<Uuid, Grant>, fence: set<Uuid>,
      todo: set<Uuid>, g: Uuid)
    requires Partway(r, session, entries, grants, fence, todo) && g in todo
    ensures var a := Assess(r, session, entries, r.grants[g]);
            Partway(r, session, entries, grants[g := Assessed(r.grants[g], a)], fence + Withdraws(a, g), todo - {g})
  {
  }

  lemma AssessedAll(
      r: Registry, session: Session, entries: seq<StatusEntry>, grants: map<Uuid, Grant>, fence: set<Uuid>)
    requires Partway(r, session, entries, grants, fence, {})
    ensures grants == AssessAll(r, session, entries) && fence == ToFence(r, session, entries)
  {
  }

  /** The first loop of `on_status_report`: acknowledges, or notes what must be withdrawn. */
  method AssessEach(r: Registry, session: Session, entries: seq<StatusEntry>)
    returns (grants: map<Uuid, Grant>, fence: set<Uuid>)
    ensures grants == AssessAll(r, session, entries) && fence == ToFence(r, session, entries)
  {
    grants, fence := r.grants, {};
    var todo := r.grants.Keys;
    while todo != {}
      invariant Partway(r, session, entries, grants, fence, todo)
      decreases |todo|
    {
      var g :| g in todo;
      AssessesOne(r, session, entries, grants, fence, todo, g);
      var a := Assess(r, session, entries, r.grants[g]);
      grants, fence, todo := grants[g := Assessed(r.grants[g], a)], fence + Withdraws(a, g), todo - {g};
    }
    AssessedAll(r, session, entries, grants, fence);
  }

  class LiveCoordinator {
    var reg: Registry
    var sessions: map<nat, Session>
    var pending: map<Uuid, Flow>
    const term: nat
    const incarnation: Uuid
    const config: Config

    constructor (s: Coord)
      ensures State() == s
    {
      reg, sessions, pending, term, incarnation, config :=
        s.reg, s.sessions, s.pending, s.term, s.incarnation, s.config;
    }

    function State(): Coord
      reads this
    {
      Coord(reg, sessions, pending, term, incarnation, config)
    }

    // ---- sessions ----

    /** The loop over the pending flows of `handle_disconnect`. */
    method DetachFlows(conn: nat)
      modifies this`pending
      ensures pending == map g | g in old(pending) :: Detached(old(pending)[g], conn)
    {
      var todo := pending.Keys;
      while todo != {}
        invariant todo <= pending.Keys == old(pending).Keys
        invariant forall g <- pending :: pending[g] == if g in todo then old(pending)[g]
                  else Detached(old(pending)[g], conn)
        decreases |todo|
      {
        var g :| g in todo;
        todo := todo - {g};
        pending := pending[g := Detached(pending[g], conn)];
      }
    }

    /** The loop over the grants of `handle_disconnect`. */
    method InterruptGrants(cluster: Name)
      modifies this`reg
      ensures reg == old(reg).(grants := Interrupted(old(reg), cluster))
    {
      var before, grants, todo := reg, reg.grants, reg.grants.Keys;
      while todo != {}
        invariant todo <= grants.Keys == before.grants.Keys
        invariant forall g <- grants :: grants[g] == if g in todo then before.grants[g]
                  else Interrupted(before, cluster)[g]
        decreases |todo|
      {
        var g :| g in todo;
        todo := todo - {g};
        if Interrupts(before, cluster, grants[g]) {
          grants := grants[g := grants[g].(state := GrantIndeterminate)];
        }
      }
      assert grants == Interrupted(before, cluster);
      reg := reg.(grants := grants);
    }

    method OnDisconnect(conn: nat)
      modifies this
      ensures State() == HandleDisconnect(old(State()), conn)
    {
      if conn !in sessions { return; }
      var cluster := sessions[conn].cluster;
      sessions := sessions - {conn};
      DetachFlows(conn);
      InterruptGrants(cluster);
    }

    // ---- fencing ----

    method ApplyFence(trigger: FenceTrigger, plan: seq<FenceAction>, now: Time) returns (ok: bool)
      modifies this`reg
      ensures var s := ApplyPlan(old(reg), trigger, plan, now); reg == s.reg && ok == s.ok
    {
      var live := new LiveRegistry(reg);
      var outcome := live.ApplyFencePlan(trigger, plan, now);
      reg := live.Contents();
      return outcome.Success?;
    }

    /** `fence_cluster`. */
    method FencesCluster(
        cluster: Name, trigger: FenceTrigger, now: Time)
      returns (ok: bool, ghost plan: seq<FenceAction>)
      modifies this`reg
      ensures IsFencePlan(old(reg), cluster, plan)
      ensures var s := FenceCluster(old(reg), trigger, plan, now); reg == s.reg && ok == s.ok
      ensures ok <==> |old(reg).audit| + |Lines(old(reg), plan)| < MAX_AUDIT_RECORDS
    {
      var actions := PlanFence(reg, cluster);
      FenceClusterEnds(reg, trigger, actions, now);
      ok := ApplyFence(trigger, actions, now);
      plan := actions;
      if ok {
        var closed := Audited(reg, NO_TALLY, now);
        reg, ok := closed.reg, closed.ok;
      }
    }

    /** `on_hello`: the plan is made after the cluster record changed. */
    method Greets(conn: nat, h: Hello, token: Uuid, now: Time) returns (ghost plan: seq<FenceAction>)
      modifies this
      ensures State() == OnHello(old(State()), conn, h, token, plan, now)
      ensures PlannedForHello(old(reg), h, plan)
    {
      var accepted;
      accepted, plan := Admits(h, now);
      if accepted {
        sessions := sessions[conn := Session(h.cluster, h.incarnation, h.generation, h.policyGeneration, token, now)];
      }
    }

    method Admits(h: Hello, now: Time) returns (accepted: bool, ghost plan: seq<FenceAction>)
      modifies this`reg
      ensures Greeting(reg, accepted) == Greet(old(State()), h, plan, now)
      ensures PlannedForHello(old(reg), h, plan)
    {
      plan := [];
      if h.cluster == [] || h.domain == [] { return false, []; }
      if h.cluster !in reg.clusters {
        if !config.allowRegistration { return false, []; }
        match PutCluster(reg, Registered(h)) {
          case Success(r) => reg := r; return true, [];
          case Failure(_) => return false, [];
        }
      }
      var c := reg.clusters[h.cluster];
      if c.domain != h.domain || h.generation < c.generation { return false, []; }
      if h.incarnation != c.incarnation {
        if h.generation == c.generation { return false, []; }
        reg := WithCluster(reg, h.cluster, Reincarnation(c, h));
        accepted, plan := FencesCluster(h.cluster, ClusterReincarnation, now);
        return;
      }
      if h.policyGeneration < c.policyGeneration { return false, []; }
      if h.policyGeneration > c.policyGeneration {
        reg := WithCluster(reg, h.cluster, c.(policyGeneration := h.policyGeneration));
        accepted, plan := FencesCluster(h.cluster, PolicyGenerationChange, now);
        return;
      }
      return true, [];
    }

    // ---- the grant flow ----

    /** One side of the loop of `reserve_capacity`. */
    method ReserveOn(g: Grant, party: Party, id: Uuid, now: Time) returns (ok: bool)
      modifies this`reg
      ensures Reserved(reg, ok) == ReserveSide(old(reg), g.id, g.capacity, party, id, now)
    {
      if !CanReserve(reg, party, g.capacity) { return false; }
      var record := Reservation(id, g.id, party.endpoint, party.cluster, g.capacity, false,
                                ReservationNotes(now, 0, 0, NO_PROVENANCE));
      ok := PutReservation(reg, record).Success?;
      reg := reg.(clusters :=
                  reg.clusters[party.cluster := Raised(reg.clusters[party.cluster], party.endpoint, g.capacity)]);
      if ok {
        reg := reg.(reservations := reg.reservations[id := record]);
      }
    }

    method ReserveCapacity(g: Grant, ids: Two<Uuid>, now: Time) returns (ok: bool)
      modifies this`reg
      ensures Reserved(reg, ok) == Reserve(old(reg), g, ids, now)
    {
      if g.contract !in reg.contracts { return false; }
      var parties := reg.contracts[g.contract].parties;
      ok := ReserveOn(g, parties.first, ids.first, now);
      if ok {
        ok := ReserveOn(g, parties.second, ids.second, now);
      }
    }

    method AbortGrant(g: Uuid)
      modifies this`reg, this`pending
      ensures State() == Abort(old(State()), g)
    {
      if g in reg.grants && reg.grants[g].state != GrantFenced && reg.grants[g].state != GrantWithdrawn {
        reg := WithGrant(reg, g, reg.grants[g].(state := Aborted));
      }
      pending := pending - {g};
    }

    /** `finalise_grant`. */
    method FinaliseGrant(g: Uuid, ids: Two<Uuid>, now: Time) returns (ok: bool)
      modifies this`reg, this`pending
      ensures Finalised(State(), ok) == Finalise(old(State()), g, ids, now)
    {
      if g !in reg.grants { return false; }
      var grant := reg.grants[g];
      if grant.Usable() { return true; }
      if !grant.BothAcknowledged() { return false; }
      ok := ReserveCapacity(grant, ids, now);
      if !ok {
        AbortGrant(g);
        return false;
      }
      reg := WithGrant(reg, g, grant.(state := Committed));
      pending := pending - {g};
      return true;
    }

    /** `on_grant_committed`. */
    method OnGrantCommitted(conn: nat, token: Uuid, g: Uuid, attempt: Uuid, installed: bool, ids: Two<Uuid>, now: Time)
      modifies this`reg, this`pending
      ensures State() == OnCommitted(old(State()), conn, token, g, attempt, installed, ids, now)
    {
      var side := ReplySide(State(), conn, token, g, attempt);
      if side.None? { return; }
      if !installed {
        AbortGrant(g);
        return;
      }
      reg := WithGrant(reg, g, Acknowledge(reg.grants[g], side.value));
      if reg.grants[g].BothAcknowledged() {
        var _ := FinaliseGrant(g, ids, now);
      }
    }

    // ---- status exchange ----

    method AssessGrants(session: Session, entries: seq<StatusEntry>) returns (fence: set<Uuid>)
      modifies this`reg
      ensures reg == old(reg).(grants := AssessAll(old(reg), session, entries))
      ensures fence == ToFence(old(reg), session, entries)
    {
      var grants;
      grants, fence := AssessEach(reg, session, entries);
      reg := reg.(grants := grants);
    }

    /** The last loop of `on_status_report`, over the grants in the given order; it ends at the first
        finalisation that fails. */
    method FinaliseGrants(work: seq<(Uuid, Two<Uuid>)>, now: Time)
      modifies this`reg, this`pending
      ensures State() == FinaliseAll(old(State()), work, now)
    {
      for i := 0 to |work|
        invariant FinaliseAll(old(State()), work, now) == FinaliseAll(State(), work[i..], now)
      {
        var g, ids := work[i].0, work[i].1;
        assert work[i..][0] == work[i] && work[i..][1..] == work[i + 1..];
        if g in reg.grants && reg.grants[g].state == GrantIndeterminate && reg.grants[g].BothAcknowledged() {
          var ok := FinaliseGrant(g, ids, now);
          if !ok { return; }
        }
      }
    }

    method OnStatus(conn: nat, token: Uuid, entries: seq<StatusEntry>, work: seq<(Uuid, Two<Uuid>)>, now: Time)
      returns (ghost plan: seq<FenceAction>)
      modifies this`reg, this`pending
      ensures State() == OnStatusReport(old(State()), conn, token, entries, plan, work, now)
      ensures Authentic(old(State()), conn, token) ==>
                IsRevocationPlan(old(reg).(grants := AssessAll(old(reg), sessions[conn], entries)),
                                 ToFence(old(reg), sessions[conn], entries), plan)
    {
      plan := [];
      if !Authentic(State(), conn, token) { return; }
      var fence := AssessGrants(sessions[conn], entries);
      var actions := PlanRevocation(reg, fence);
      plan := actions;
      var ok := ApplyFence(GrantRevocation, actions, now);
      if ok {
        FinaliseGrants(work, now);
      }
    }

    // ---- the clock ----

    /** The marking loop of `expire_grants`. */
    method MarkAll(expired: set<Uuid>)
      modifies this`reg
      ensures reg == old(reg).(grants := MarkExpired(old(reg).grants, expired))
    {
      var todo := expired;
      while todo != {}
        invariant reg == old(reg).(grants := reg.grants) && todo <= expired && reg.grants.Keys == old(reg).grants.Keys
        invariant forall g <- reg.grants ::
                    reg.grants[g] == if g in expired - todo then old(reg).grants[g].(state := GrantExpired)
                      else old(reg).grants[g]
        decreases |todo|
      {
        var g :| g in todo;
        todo := todo - {g};
        if g in reg.grants {
          reg := WithGrant(reg, g, reg.grants[g].(state := GrantExpired));
        }
      }
      assert reg.grants == MarkExpired(old(reg).grants, expired);
    }

    method Expire(now: Time) returns (ghost plan: seq<FenceAction>)
      modifies this`reg
      ensures IsRevocationPlan(old(reg), Expiring(old(reg), now), plan)
      ensures State() == ExpireGrants(old(State()), plan, now)
    {
      var expired := Expiring(reg, now);
      var actions := PlanRevocation(reg, expired);
      plan := actions;
      var _ := ApplyFence(GrantExpiry, actions, now);
      MarkAll(expired);
    }
  }
}
