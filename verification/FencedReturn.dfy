/** Neither a fenced nor an aborted grant is final at the coordinator: a repeated commit reply puts it in use
    again, and the pairs it carried are authorized again. */
module FencedReturn {
  import opened Model
  import opened Engine
  import opened Fencing
  import opened FenceEffects
  import opened FenceReach
  import opened Planning
  import opened Coordination
  import opened Frames
  import opened Effects
  import opened DecisionFrame
  import opened SampleRun
  import LedgerRuns

  // ---- every completed flow ----

  /** Two fresh identities for reservations, with room for their records. */
  predicate CanBook(r: Registry, ids: Two<Uuid>) {
    && ids.first != ids.second && ids.first !in r.reservations && ids.second !in r.reservations
    && ids.first != 0 && ids.second != 0 && |r.reservations| + 2 <= MAX_RESERVATIONS
  }

  /** The grant's contract is registered between two different clusters. */
  predicate Between(r: Registry, g: Grant) {
    g.contract in r.contracts
    && r.contracts[g.contract].parties.first.cluster != r.contracts[g.contract].parties.second.cluster
  }

  lemma SideLeavesRoom(r: Registry, grant: Uuid, amount: nat, here: Party, party: Party, id: Uuid, now: Time, more: nat)
    requires ReserveSide(r, grant, amount, here, id, now).ok && CanReserve(r, party, more)
    requires more >= if here.cluster == party.cluster then 2 * amount else amount
    ensures CanReserve(ReserveSide(r, grant, amount, here, id, now).reg, party, amount)
    ensures here.cluster != party.cluster ==> CanReserve(ReserveSide(r, grant, amount, here, id, now).reg, party, more)
  {
  }

  /** Where there was room for twice the grant there is room for it once more after it was reserved. */
  lemma ReserveLeavesRoom(r: Registry, g: Grant, ids: Two<Uuid>, now: Time, side: Side)
    requires Between(r, g) && Reserve(r, g, ids, now).ok
    requires CanReserve(r, r.contracts[g.contract].parties.At(side), 2 * g.capacity)
    ensures CanReserve(Reserve(r, g, ids, now).reg, r.contracts[g.contract].parties.At(side), g.capacity)
  {
    var p := r.contracts[g.contract].parties;
    var one := ReserveSide(r, g.id, g.capacity, p.first, ids.first, now).reg;
    SideLeavesRoom(r, g.id, g.capacity, p.first, p.At(side), ids.first, now, 2 * g.capacity);
    SideLeavesRoom(one, g.id, g.capacity, p.second, p.At(side), ids.second, now, if side
                   == First then g.capacity else 2 * g.capacity);
  }

  lemma FencingLeavesRoom(r: Registry, s: Registry, party: Party, amount: nat)
    requires Withdrawn(r, s) && CanReserve(r, party, amount)
    ensures CanReserve(s, party, amount)
  {
    assert ClusterLowered(r.clusters[party.cluster], s.clusters[party.cluster]);
    assert EndpointLowered(r.clusters[party.cluster].endpoints[party.endpoint],
                           s.clusters[party.cluster].endpoints[party.endpoint]);
  }

  /** Fencing a usable grant leaves its attempt and both acknowledgements on record. */
  lemma FencedKeepsAcknowledgements(s: Coord, g: Uuid, plan: seq<FenceAction>, now: Time)
    requires g in s.reg.grants && s.reg.grants[g].Usable() && FenceGrant(g) in plan && HasTrailRoom(s.reg, plan)
    ensures var t := FenceBy(s, GrantRevocation, plan, now);
            && g in t.reg.grants && t.reg.grants[g] == s.reg.grants[g].(state := GrantFenced)
            && t.sessions == s.sessions
            && Withdrawn(s.reg, t.reg)
  {
    RunsToEnd(s.reg, GrantRevocation, plan, now);
    PlanOnGrant(s.reg, GrantRevocation, plan, now, g);
    PlanWithdraws(s.reg, GrantRevocation, plan, now);
  }

  lemma AnswersAfterFence(s: Coord, t: Coord, conn: nat, token: Uuid, g: Uuid, side: Side)
    requires g in s.reg.grants && Answers(s, conn, token, g, s.reg.grants[g].attempt, side)
    requires Withdrawn(s.reg, t.reg) && t.sessions == s.sessions
    ensures g in t.reg.grants && Answers(t, conn, token, g, s.reg.grants[g].attempt, side)
  {
    assert GrantWithdrawnOnly(s.reg.grants[g], t.reg.grants[g]);
    var c := s.reg.grants[g].contract;
    assert ContractWithdrawnOnly(s.reg.contracts[c], t.reg.contracts[c]);
  }

  lemma RepliesAgain(s: Coord, conn: nat, token: Uuid, g: Uuid, side: Side, ids: Two<Uuid>, now: Time)
    requires g in s.reg.grants && !s.reg.grants[g].Usable() && s.reg.grants[g].BothAcknowledged()
    requires Answers(s, conn, token, g, s.reg.grants[g].attempt, side) && Between(s.reg, s.reg.grants[g])
    requires CanBook(s.reg, ids)
    ensures var t := OnCommitted(s, conn, token, g, s.reg.grants[g].attempt, true, ids, now);
            var p := s.reg.contracts[s.reg.grants[g].contract].parties;
            && g in t.reg.grants
            && (t.reg.grants[g].Usable() <==>
                  CanReserve(s.reg, p.first, s.reg.grants[g].capacity)
                    && CanReserve(s.reg, p.second, s.reg.grants[g].capacity))
            && (t.reg.grants[g].Usable() ==> t.reg == CommittedAfter(s.reg, g, s.reg.grants[g], ids, now))
  {
    assert Acknowledge(s.reg.grants[g], side) == s.reg.grants[g];
    CommitDecides(s, conn, token, g, ids, now);
    RoomIsEnough(s.reg, g, s.reg.grants[g], ids, now);
  }

  /** A usable grant that is fenced, and then acknowledged once more by either agent, is usable again exactly
      when both endpoints still have room for it: the fence does not last.  When the plan withdraws that grant
      alone, the decisions are then what they were before the fence. */
  lemma FencedGrantReturns(
      s: Coord, g: Uuid, plan: seq<FenceAction>, now: Time, conn: nat, token: Uuid, side: Side, ids: Two<Uuid>,
      later: Time)
    requires g in s.reg.grants && s.reg.grants[g].Usable() && s.reg.grants[g].BothAcknowledged()
    requires FenceGrant(g) in plan && HasTrailRoom(s.reg, plan)
    requires Answers(s, conn, token, g, s.reg.grants[g].attempt, side) && Between(s.reg, s.reg.grants[g])
    requires CanBook(s.reg, ids)
    ensures var fenced := FenceBy(s, GrantRevocation, plan, now);
            var t := OnCommitted(fenced, conn, token, g, s.reg.grants[g].attempt, true, ids, later);
            var p, amount := s.reg.contracts[s.reg.grants[g].contract].parties, s.reg.grants[g].capacity;
            && g in fenced.reg.grants && fenced.reg.grants[g].state == GrantFenced && CarriesNothing(fenced.reg, g)
            && g in t.reg.grants
            && (t.reg.grants[g].Usable() <==>
                  CanReserve(fenced.reg, p.first, amount) && CanReserve(fenced.reg, p.second, amount))
            && (t.reg.grants[g].Usable() && Revokes(plan, g) ==> SameDecisions(s.reg, t.reg))
  {
    var fenced := FenceBy(s, GrantRevocation, plan, now);
    FencedKeepsAcknowledgements(s, g, plan, now);
    AnswersAfterFence(s, fenced, conn, token, g, side);
    FencedKeepsShape(s.reg, fenced.reg, s.reg.grants[g], ids);
    RepliesAgain(fenced, conn, token, g, side, ids, later);
    UnusableCarriesNothing(fenced.reg, g);
    if Revokes(plan, g) {
      RevocationTakesAway(s, g, plan, now);
      ReturnRestores(s, fenced, g, ids, later);
    }
  }

  /** The same of a usable grant that an agent aborts: its reservations are kept, so the endpoints must have
      room for it a second time. */
  lemma AbortedGrantReturns(
      s: Coord, g: Uuid, from: nat, fromToken: Uuid, conn: nat, token: Uuid, side: Side, ids: Two<Uuid>, later: Time)
    requires g in s.reg.grants && s.reg.grants[g].Usable() && s.reg.grants[g].BothAcknowledged()
    requires Authentic(s, from, fromToken)
    requires Answers(s, conn, token, g, s.reg.grants[g].attempt, side) && Between(s.reg, s.reg.grants[g])
    requires CanBook(s.reg, ids)
    ensures var aborted := OnAborted(s, from, fromToken, g);
            var t := OnCommitted(aborted, conn, token, g, s.reg.grants[g].attempt, true, ids, later);
            var p, amount := s.reg.contracts[s.reg.grants[g].contract].parties, s.reg.grants[g].capacity;
            && g in aborted.reg.grants && aborted.reg.grants[g].state == Aborted && CarriesNothing(aborted.reg, g)
            && g in t.reg.grants
            && (t.reg.grants[g].Usable() <==> CanReserve(s.reg, p.first, amount) && CanReserve(s.reg, p.second, amount))
            && (t.reg.grants[g].Usable() ==> SameDecisions(s.reg, t.reg))
  {
    var aborted := OnAborted(s, from, fromToken, g);
    AbortTakesAway(s, g, from, fromToken);
    AnswersStay(s, aborted, conn, token, g, s.reg.grants[g].attempt, side);
    RepliesAgain(aborted, conn, token, g, side, ids, later);
    UnusableCarriesNothing(aborted.reg, g);
    ReturnRestores(s, aborted, g, ids, later);
  }

  // ---- what the decisions see of it ----

  /** The plan withdraws this grant and no other authority. */
  predicate Revokes(plan: seq<FenceAction>, g: Uuid) {
    FenceGrant(g) in plan && forall a <- plan :: a == FenceGrant(g) || a.ReleaseReservation?
  }

  ghost predicate CarriesNothing(r: Registry, g: Uuid) {
    forall q: Query, v: View, c :: !Authorizes(r, q, v, c, g)
  }

  lemma UnusableCarriesNothing(r: Registry, g: Uuid)
    requires g in r.grants && !r.grants[g].Usable()
    ensures CarriesNothing(r, g)
  {
    forall q: Query, v: View, c ensures !Authorizes(r, q, v, c, g) {
      if Authorizes(r, q, v, c, g) { AuthorizedGrant(r, q, v, c, g); }
    }
  }

  /** All that `mid` lacks of what a decision looks at is the use of one grant. */
  predicate TakenAway(r: Registry, mid: Registry, g: Uuid) {
    && g in r.grants && g in mid.grants
    && mid.grants == r.grants[g := r.grants[g].(state := mid.grants[g].state)]
    && mid.contracts == r.contracts && mid.paths == r.paths && mid.policies == r.policies
    && SameClusters(r.clusters, mid.clusters)
  }

  lemma RevocationTakesAway(s: Coord, g: Uuid, plan: seq<FenceAction>, now: Time)
    requires g in s.reg.grants && s.reg.grants[g].Usable() && Revokes(plan, g) && HasTrailRoom(s.reg, plan)
    ensures TakenAway(s.reg, FenceBy(s, GrantRevocation, plan, now).reg, g)
  {
    var t := FenceBy(s, GrantRevocation, plan, now).reg;
    RunsToEnd(s.reg, GrantRevocation, plan, now);
    PlanEffect(s.reg, GrantRevocation, plan, now);
    PlanWithdraws(s.reg, GrantRevocation, plan, now);
    LoweredIsSame(s.reg.clusters, t.clusters);
    RevokesOne(s.reg, plan, g, now);
  }

  lemma RevokesOne(r: Registry, plan: seq<FenceAction>, g: Uuid, now: Time)
    requires g in r.grants && r.grants[g].Usable() && Revokes(plan, g)
    ensures GrantsAfter(r.grants, plan) == r.grants[g := r.grants[g].(state := GrantFenced)]
    ensures ContractsAfter(r.contracts, GrantRevocation, plan, now) == r.contracts
  {
  }

  lemma AbortTakesAway(s: Coord, g: Uuid, from: nat, fromToken: Uuid)
    requires g in s.reg.grants && s.reg.grants[g].Usable() && Authentic(s, from, fromToken)
    ensures var t := OnAborted(s, from, fromToken, g);
            && t.reg == WithGrant(s.reg, g, s.reg.grants[g].(state := Aborted)) && t.sessions == s.sessions
            && TakenAway(s.reg, t.reg, g)
  {
    SameItself(s.reg.clusters);
  }

  lemma SameItself(clusters: map<Name, Cluster>)
    ensures SameClusters(clusters, clusters)
  {
  }

  lemma RaisedIsSame(clusters: map<Name, Cluster>, c: Name, e: Name, amount: nat)
    requires c in clusters && e in clusters[c].endpoints
    ensures SameClusters(clusters, clusters[c := Raised(clusters[c], e, amount)])
  {
    assert SameButCounters(clusters[c], Raised(clusters[c], e, amount));
  }

  lemma SideIsSame(r: Registry, grant: Uuid, amount: nat, party: Party, id: Uuid, now: Time)
    ensures var s := ReserveSide(r, grant, amount, party, id, now).reg;
            SameClusters(r.clusters, s.clusters) && s.paths == r.paths && s.policies == r.policies
  {
    if CanReserve(r, party, amount) {
      RaisedIsSame(r.clusters, party.cluster, party.endpoint, amount);
    } else {
      SameItself(r.clusters);
    }
  }

  lemma ReserveIsSame(r: Registry, g: Grant, ids: Two<Uuid>, now: Time)
    ensures var s := Reserve(r, g, ids, now).reg;
            SameClusters(r.clusters, s.clusters) && s.paths == r.paths && s.policies == r.policies
  {
    SameItself(r.clusters);
    if g.contract in r.contracts {
      var p := r.contracts[g.contract].parties;
      var one := ReserveSide(r, g.id, g.capacity, p.first, ids.first, now).reg;
      SideIsSame(r, g.id, g.capacity, p.first, ids.first, now);
      SideIsSame(one, g.id, g.capacity, p.second, ids.second, now);
      SameClustersTransitive(r.clusters, one.clusters,
                             ReserveSide(one, g.id, g.capacity, p.second, ids.second, now).reg.clusters);
    }
  }

  /** Committing and reserving again gives back everything the decisions had. */
  lemma ReturnRestores(s: Coord, mid: Coord, g: Uuid, ids: Two<Uuid>, now: Time)
    requires TakenAway(s.reg, mid.reg, g) && s.reg.grants[g].Usable()
    ensures SameDecisions(s.reg, CommittedAfter(mid.reg, g, mid.reg.grants[g], ids, now))
  {
    var full := mid.reg.grants[g];
    var t := CommittedAfter(mid.reg, g, full, ids, now);
    var reserved := Reserve(WithGrant(mid.reg, g, full), full, ids, now).reg;
    ReserveFrame(WithGrant(mid.reg, g, full), full, ids, now);
    ReserveIsSame(WithGrant(mid.reg, g, full), full, ids, now);
    SameClustersTransitive(s.reg.clusters, mid.reg.clusters, t.clusters);
    assert SameGrants(s.reg.grants, t.grants);
    LedgerDoesNotDecide(s.reg, t);
  }

  lemma FencedKeepsShape(r: Registry, s: Registry, g: Grant, ids: Two<Uuid>)
    requires Withdrawn(r, s) && Between(r, g) && CanBook(r, ids)
    ensures Between(s, g) && CanBook(s, ids) && s.contracts[g.contract].parties == r.contracts[g.contract].parties
  {
    assert ContractWithdrawnOnly(r.contracts[g.contract], s.contracts[g.contract]);
    assert s.reservations.Keys == r.reservations.Keys;
    assert |s.reservations| == |s.reservations.Keys| && |r.reservations| == |r.reservations.Keys|;
  }

  // ---- from an open flow to the return ----

  /** An open flow with everything the two rounds of reservations will need. */
  predicate Ready(
      s: Coord, g: Uuid, one: nat, oneToken: Uuid, two: nat, twoToken: Uuid, ids: Two<Uuid>, again: Two<Uuid>)
  {
    && FlowOpen(s, g, one, oneToken, two, twoToken) && Between(s.reg, s.reg.grants[g])
    && CanBook(s.reg, ids) && CanBook(s.reg, again) && |s.reg.reservations| + 4 <= MAX_RESERVATIONS
    && again.first != ids.first && again.first != ids.second && again.second != ids.first && again.second != ids.second
  }

  function PartiesOf(r: Registry, g: Uuid): Two<Party>
    requires g in r.grants && r.grants[g].contract in r.contracts
  {
    r.contracts[r.grants[g].contract].parties
  }

  /** The grant with both acknowledgements, before it is reserved. */
  function Full(s: Coord, g: Uuid): Grant
    requires g in s.reg.grants
  {
    s.reg.grants[g].(state := Prepared, acknowledged := Two(true, true))
  }

  lemma SideFrame(r: Registry, grant: Uuid, amount: nat, party: Party, id: Uuid, now: Time)
    ensures var s := ReserveSide(r, grant, amount, party, id, now).reg;
            s.contracts == r.contracts && s.grants == r.grants && s.audit == r.audit
  {
  }

  lemma ReserveFrame(r: Registry, g: Grant, ids: Two<Uuid>, now: Time)
    ensures var s := Reserve(r, g, ids, now).reg;
            s.contracts == r.contracts && s.grants == r.grants && s.audit == r.audit
  {
    if g.contract in r.contracts {
      var p := r.contracts[g.contract].parties;
      SideFrame(r, g.id, g.capacity, p.first, ids.first, now);
      SideFrame(ReserveSide(r, g.id, g.capacity, p.first, ids.first, now).reg, g.id, g.capacity, p.second, ids.second,
                now);
    }
  }

  /** What committing after a reservation leaves. */
  lemma CommittedParts(r: Registry, g: Uuid, full: Grant, ids: Two<Uuid>, now: Time)
    ensures var t := CommittedAfter(r, g, full, ids, now);
            && g in t.grants && t.grants[g] == full.(state := Committed) && t.contracts == r.contracts
            && t.audit == r.audit
            && t.clusters == Reserve(WithGrant(r, g, full), full, ids, now).reg.clusters
            && t.reservations == Reserve(WithGrant(r, g, full), full, ids, now).reg.reservations
  {
    ReserveFrame(WithGrant(r, g, full), full, ids, now);
  }

  lemma StillBooks(r: Registry, s: Registry, ids: Two<Uuid>, again: Two<Uuid>)
    requires CanBook(r, again) && |r.reservations| + 4 <= MAX_RESERVATIONS
    requires again.first != ids.first && again.first != ids.second && again.second != ids.first
    requires again.second != ids.second
    requires s.reservations.Keys <= r.reservations.Keys + {ids.first, ids.second}
    requires |s.reservations| <= |r.reservations| + 2
    ensures CanBook(s, again)
  {
    assert again.first !in s.reservations.Keys && again.second !in s.reservations.Keys;
  }

  lemma CommittedBooks(r: Registry, g: Uuid, full: Grant, ids: Two<Uuid>, again: Two<Uuid>, now: Time)
    requires CanBook(r, again) && |r.reservations| + 4 <= MAX_RESERVATIONS
    requires again.first != ids.first && again.first != ids.second && again.second != ids.first
    requires again.second != ids.second
    ensures CanBook(CommittedAfter(r, g, full, ids, now), again)
  {
    LedgerRuns.ReserveGrows(WithGrant(r, g, full), full, ids, now);
    StillBooks(r, CommittedAfter(r, g, full, ids, now), ids, again);
  }

  lemma CommittedRoom(r: Registry, g: Uuid, full: Grant, ids: Two<Uuid>, now: Time, side: Side)
    requires Between(r, full) && Reserve(WithGrant(r, g, full), full, ids, now).ok
    requires CanReserve(r, r.contracts[full.contract].parties.At(side), 2 * full.capacity)
    ensures CanReserve(CommittedAfter(r, g, full, ids, now), r.contracts[full.contract].parties.At(side), full.capacity)
  {
    CommittedParts(r, g, full, ids, now);
    ReserveLeavesRoom(WithGrant(r, g, full), full, ids, now, side);
  }

  /** All four replies leave the grant in use. */
  lemma FlowServes(
      s: Coord, g: Uuid, one: nat, oneToken: Uuid, two: nat, twoToken: Uuid, ids: Two<Uuid>, again: Two<Uuid>,
      now: Time)
    requires Ready(s, g, one, oneToken, two, twoToken, ids, again)
    requires var p := PartiesOf(s.reg, g);
             CanReserve(s.reg, p.first, s.reg.grants[g].capacity)
               && CanReserve(s.reg, p.second, s.reg.grants[g].capacity)
    ensures var t := Answered(s, g, s.reg.grants[g].attempt, one, oneToken, two, twoToken, ids, ids, now);
            && Reserve(WithGrant(s.reg, g, Full(s, g)), Full(s, g), ids, now).ok
            && t.reg == CommittedAfter(s.reg, g, Full(s, g), ids, now) && t.sessions == s.sessions
  {
    FlowCompletes(s, g, one, oneToken, two, twoToken, ids, ids, now);
    AnsweredFlow(s, g, one, oneToken, two, twoToken, ids, ids, now);
  }

  lemma FewLines(r: Registry, plan: seq<FenceAction>)
    requires |r.audit| + |plan| <= MAX_AUDIT_RECORDS
    ensures HasTrailRoom(r, plan)
  {
    NoMoreLines(r, plan);
  }

  lemma {:induction false} NoMoreLines(r: Registry, plan: seq<FenceAction>)
    ensures |Lines(r, plan)| <= |plan|
    decreases |plan|
  {
    if plan == [] {
      assert Lines(r, plan) == {};
    } else {
      LinesExtend(r, plan);
      NoMoreLines(r, plan[..|plan| - 1]);
    }
  }

  /** Both agents of the open flow `s` have answered. */
  predicate Served(s: Coord, t: Coord, g: Uuid, ids: Two<Uuid>, now: Time) {
    && g in s.reg.grants && Between(s.reg, Full(s, g))
    && Reserve(WithGrant(s.reg, g, Full(s, g)), Full(s, g), ids, now).ok
    && t.reg == CommittedAfter(s.reg, g, Full(s, g), ids, now) && t.sessions == s.sessions
  }

  predicate RoomForTwice(s: Coord, g: Uuid)
    requires g in s.reg.grants && s.reg.grants[g].contract in s.reg.contracts
  {
    var p, amount := PartiesOf(s.reg, g), s.reg.grants[g].capacity;
    CanReserve(s.reg, p.first, 2 * amount) && CanReserve(s.reg, p.second, 2 * amount)
  }

  lemma RoomForOnce(s: Coord, g: Uuid)
    requires g in s.reg.grants && s.reg.grants[g].contract in s.reg.contracts && RoomForTwice(s, g)
    ensures var p, amount := PartiesOf(s.reg, g), s.reg.grants[g].capacity;
            CanReserve(s.reg, p.first, amount) && CanReserve(s.reg, p.second, amount)
  {
  }

  /** Fence the state `t` that the replies left, and let the first agent's reply come once more. */
  lemma ServedThenFenced(
      s: Coord, t: Coord, g: Uuid, one: nat, oneToken: Uuid, ids: Two<Uuid>, again: Two<Uuid>, plan: seq<FenceAction>,
      now: Time)
    requires Served(s, t, g, ids, now) && RoomForTwice(s, g) && CanBook(t.reg, again)
    requires Answers(s, one, oneToken, g, s.reg.grants[g].attempt, First)
    requires FenceGrant(g) in plan && |s.reg.audit| + |plan| <= MAX_AUDIT_RECORDS
    ensures FencedAndBack(t, g, one, oneToken, again, plan, now)
  {
    CommittedParts(s.reg, g, Full(s, g), ids, now);
    AnswersStay(s, t, one, oneToken, g, s.reg.grants[g].attempt, First);
    FewLines(t.reg, plan);
    FencedGrantReturns(t, g, plan, now, one, oneToken, First, again, now);
    RoomAfterFence(s, t, g, ids, plan, now, First);
    RoomAfterFence(s, t, g, ids, plan, now, Second);
  }

  lemma RoomAfterFence(s: Coord, t: Coord, g: Uuid, ids: Two<Uuid>, plan: seq<FenceAction>, now: Time, side: Side)
    requires Served(s, t, g, ids, now) && RoomForTwice(s, g)
    ensures CanReserve(FenceBy(t, GrantRevocation, plan, now).reg, PartiesOf(s.reg, g).At(side),
                       s.reg.grants[g].capacity)
  {
    CommittedRoom(s.reg, g, Full(s, g), ids, now, side);
    PlanWithdraws(t.reg, GrantRevocation, plan, now);
    FencingLeavesRoom(t.reg, FenceBy(t, GrantRevocation, plan, now).reg, PartiesOf(s.reg, g).At(side),
                      s.reg.grants[g].capacity);
  }

  lemma ServedThenAborted(
      s: Coord, t: Coord, g: Uuid, one: nat, oneToken: Uuid, ids: Two<Uuid>, again: Two<Uuid>, now: Time)
    requires Served(s, t, g, ids, now) && RoomForTwice(s, g) && CanBook(t.reg, again)
    requires Answers(s, one, oneToken, g, s.reg.grants[g].attempt, First)
    ensures AbortedAndBack(t, g, one, oneToken, again, now)
  {
    CommittedParts(s.reg, g, Full(s, g), ids, now);
    AnswersStay(s, t, one, oneToken, g, s.reg.grants[g].attempt, First);
    AbortedGrantReturns(t, g, one, oneToken, one, oneToken, First, again, now);
    CommittedRoom(s.reg, g, Full(s, g), ids, now, First);
    CommittedRoom(s.reg, g, Full(s, g), ids, now, Second);
  }

  /** The grant is in use; it is taken away, so that it carries nothing; it is in use again. */
  ghost predicate OffAndOn(t: Registry, off: Registry, back: Registry, g: Uuid, state: GrantState) {
    && g in t.grants && t.grants[g].Usable()
    && g in off.grants && off.grants[g].state == state && CarriesNothing(off, g)
    && g in back.grants && back.grants[g].Usable()
  }

  /** The grant is fenced and the first agent's commit reply comes a second time. */
  ghost predicate FencedAndBack(
      t: Coord, g: Uuid, one: nat, oneToken: Uuid, again: Two<Uuid>, plan: seq<FenceAction>, now: Time)
  {
    && g in t.reg.grants
    && var fenced := FenceBy(t, GrantRevocation, plan, now);
       var back := OnCommitted(fenced, one, oneToken, g, t.reg.grants[g].attempt, true, again, now);
       OffAndOn(t.reg, fenced.reg, back.reg, g, GrantFenced) && (Revokes(plan, g) ==> SameDecisions(t.reg, back.reg))
  }

  /** The first agent aborts the grant and its commit reply comes a second time. */
  ghost predicate AbortedAndBack(t: Coord, g: Uuid, one: nat, oneToken: Uuid, again: Two<Uuid>, now: Time) {
    && g in t.reg.grants
    && var aborted := OnAborted(t, one, oneToken, g);
       var back := OnCommitted(aborted, one, oneToken, g, t.reg.grants[g].attempt, true, again, now);
       OffAndOn(t.reg, aborted.reg, back.reg, g, Aborted) && SameDecisions(t.reg, back.reg)
  }

  /** Every open flow with room for twice its grant can be served, fenced or aborted, and put in use again
      with the same decisions as before. */
  lemma FlowReturns(
      s: Coord, g: Uuid, one: nat, oneToken: Uuid, two: nat, twoToken: Uuid, ids: Two<Uuid>, again: Two<Uuid>,
      plan: seq<FenceAction>, now: Time)
    requires Ready(s, g, one, oneToken, two, twoToken, ids, again) && RoomForTwice(s, g)
    requires FenceGrant(g) in plan && |s.reg.audit| + |plan| <= MAX_AUDIT_RECORDS
    ensures var t := Answered(s, g, s.reg.grants[g].attempt, one, oneToken, two, twoToken, ids, ids, now);
            && FencedAndBack(t, g, one, oneToken, again, plan, now) && AbortedAndBack(t, g, one, oneToken, again, now)
            && t.reg == CommittedAfter(s.reg, g, Full(s, g), ids, now)
  {
    RoomForOnce(s, g);
    FlowServes(s, g, one, oneToken, two, twoToken, ids, again, now);
    var served := Answered(s, g, s.reg.grants[g].attempt, one, oneToken, two, twoToken, ids, ids, now);
    CommittedBooks(s.reg, g, Full(s, g), ids, again, now);
    ServedThenFenced(s, served, g, one, oneToken, ids, again, plan, now);
    ServedThenAborted(s, served, g, one, oneToken, ids, again, now);
  }

  // ---- the run from an empty coordinator ----

  const BOTH := Two(31, 32)
  const AGAIN := Two(33, 34)
  const PLAN := [FenceGrant(21), ReleaseReservation(31), ReleaseReservation(32)]

  lemma IssuedIsReady(digest: Terms -> Digest, s: Coord)
    requires s == Issued(digest, 1)
    ensures Ready(s, 21, 1, 11, 2, 12, BOTH, AGAIN) && RoomForTwice(s, 21)
    ensures s.reg.grants[21].attempt == 22 && s.reg.audit == []
  {
    IssuedParts(digest, 1);
    EndpointsHaveRoom(s.reg, First, 2);
    EndpointsHaveRoom(s.reg, Second, 2);
    TwoNames();
  }

  /** The run up to the four replies. */
  ghost function ServedRun(digest: Terms -> Digest): Coord {
    Answered(Issued(digest, 1), 21, 22, 1, 11, 2, 12, BOTH, BOTH, 0)
  }

  /** The pair is authorized over the grant; fenced or aborted, the grant carries nothing; the commit reply
      comes once more and the decisions are as before. */
  ghost predicate AuthorizedOffAndOn(
      t: Coord, g: Uuid, one: nat, oneToken: Uuid, again: Two<Uuid>, plan: seq<FenceAction>, now: Time, q: Query,
      v: View, c: Uuid)
  {
    && Authorizes(t.reg, q, v, c, g) && Revokes(plan, g)
    && FencedAndBack(t, g, one, oneToken, again, plan, now) && AbortedAndBack(t, g, one, oneToken, again, now)
  }

  lemma FencedThenAuthorized(digest: Terms -> Digest) returns (t: Coord)
    ensures t == ServedRun(digest) && AuthorizedOffAndOn(t, 21, 1, 11, AGAIN, PLAN, 0, QUERY, VIEW, 9)
  {
    var s := Issued(digest, 1);
    IssuedIsReady(digest, s);
    IssuedIsInUse(digest, s);
    InUseAuthorizes(digest, 1);
    t := ReadyReturns(s, InUse(digest, 1));
  }

  lemma ReadyReturns(s: Coord, u: Registry) returns (t: Coord)
    requires Ready(s, 21, 1, 11, 2, 12, BOTH, AGAIN) && RoomForTwice(s, 21)
    requires s.reg.grants[21].attempt == 22 && s.reg.audit == []
    requires InUseOf(s.reg, 21, Full(s, 21), u) && Authorizes(u, QUERY, VIEW, 9, 21)
    ensures t == Answered(s, 21, 22, 1, 11, 2, 12, BOTH, BOTH, 0)
    ensures AuthorizedOffAndOn(t, 21, 1, 11, AGAIN, PLAN, 0, QUERY, VIEW, 9)
  {
    PlanRevokes();
    t := FlowOffAndOn(s, 21, 1, 11, 2, 12, BOTH, AGAIN, PLAN, 0, u, QUERY, VIEW, 9);
  }

  lemma PlanRevokes()
    ensures Revokes(PLAN, 21)
  {
    assert PLAN[0] == FenceGrant(21);
  }

  lemma FlowOffAndOn(
      s: Coord, g: Uuid, one: nat, oneToken: Uuid, two: nat, twoToken: Uuid, ids: Two<Uuid>, again: Two<Uuid>,
      plan: seq<FenceAction>, now: Time, u: Registry, q: Query, v: View, c: Uuid)
    returns (t: Coord)
    requires Ready(s, g, one, oneToken, two, twoToken, ids, again) && RoomForTwice(s, g)
    requires Revokes(plan, g) && |s.reg.audit| + |plan| <= MAX_AUDIT_RECORDS
    requires InUseOf(s.reg, g, Full(s, g), u) && Authorizes(u, q, v, c, g)
    ensures t == Answered(s, g, s.reg.grants[g].attempt, one, oneToken, two, twoToken, ids, ids, now)
    ensures AuthorizedOffAndOn(t, g, one, oneToken, again, plan, now, q, v, c)
  {
    FlowReturns(s, g, one, oneToken, two, twoToken, ids, again, plan, now);
    t := Answered(s, g, s.reg.grants[g].attempt, one, oneToken, two, twoToken, ids, ids, now);
    CommittedAuthorizes(s.reg, g, Full(s, g), ids, now, u, q, v, c);
  }

  predicate InUseOf(r: Registry, g: Uuid, full: Grant, u: Registry) {
    && u.paths == r.paths && u.policies == r.policies && u.contracts == r.contracts && u.clusters == r.clusters
    && u.grants == r.grants[g := full.(state := Committed)]
  }

  lemma IssuedIsInUse(digest: Terms -> Digest, s: Coord)
    requires s == Issued(digest, 1) && 21 in s.reg.grants
    ensures InUseOf(s.reg, 21, Full(s, 21), InUse(digest, 1))
  {
    IssuedParts(digest, 1);
    TurnsToUse(digest, s.reg);
  }

  lemma TurnsToUse(digest: Terms -> Digest, r: Registry)
    requires r == Holding(AfterBoth(digest)).reg.(grants := map[21 := GrantIssued(digest, 1)])
    ensures InUseOf(r, 21, GrantIssued(digest, 1).(state := Prepared, acknowledged := Two(true, true)),
                    InUse(digest, 1))
  {
  }

  lemma CommittedAuthorizes(
      r: Registry, g: Uuid, full: Grant, ids: Two<Uuid>, now: Time, u: Registry, q: Query, v: View, c: Uuid)
    requires InUseOf(r, g, full, u) && Authorizes(u, q, v, c, g)
    ensures Authorizes(CommittedAfter(r, g, full, ids, now), q, v, c, g)
  {
    CommittedLooks(r, g, full, ids, now, u);
    StillAuthorizes(u, CommittedAfter(r, g, full, ids, now), q, v, c, g);
  }

  /** Reserving does not show in what a decision looks at. */
  lemma CommittedLooks(r: Registry, g: Uuid, full: Grant, ids: Two<Uuid>, now: Time, u: Registry)
    requires InUseOf(r, g, full, u)
    ensures LooksSame(u, CommittedAfter(r, g, full, ids, now))
  {
    ReserveFrame(WithGrant(r, g, full), full, ids, now);
    ReserveIsSame(WithGrant(r, g, full), full, ids, now);
  }
}
