/** The capacity ledger: usable grants, reservations and endpoint counters agree. */
module Ledger {
  import opened Model
  import opened Sums
  import opened Engine
  import opened Fencing
  import opened FenceEffects
  import opened Planning
  import opened Coordination
  import opened Frames

  // ---- the invariant ----

  /** An unreleased reservation of the grant's whole capacity against the endpoint. */
  predicate Backs(v: Reservation, g: Uuid, e: Name, amount: nat) {
    !v.released && v.grant == g && v.endpoint == e && v.amount == amount
  }

  predicate HasReservation(r: Registry, g: Uuid, e: Name, amount: nat) {
    exists k <- r.reservations :: Backs(r.reservations[k], g, e, amount)
  }

  /** A usable grant holds at least one reservation on each side. */
  predicate GrantSupported(r: Registry, g: Uuid)
    requires g in r.grants
  {
    r.grants[g].Usable() ==>
      && r.grants[g].contract in r.contracts
      && var parties := r.contracts[r.grants[g].contract].parties;
         HasReservation(r, g, parties.first.endpoint, r.grants[g].capacity)
         && HasReservation(r, g, parties.second.endpoint, r.grants[g].capacity)
  }

  predicate Supported(r: Registry) {
    forall g <- r.grants :: r.grants[g].id == g && GrantSupported(r, g)
  }

  /** The counter of a declared endpoint covers the ledger and stays within capacity; in crash-free runs it
      is the ledger, exactly. */
  ghost predicate CounterOk(r: Registry, c: Name, e: Name, exact: bool)
    requires Declares(r, c, e)
  {
    && Held(r.reservations, e) <= Counter(r, c, e) <= r.clusters[c].endpoints[e].capacity
    && (exact ==> Counter(r, c, e) == Held(r.reservations, e))
  }

  ghost predicate CountersOk(r: Registry, exact: bool) {
    forall c, e :: Declares(r, c, e) ==> CounterOk(r, c, e, exact)
  }

  ghost predicate LedgerOk(r: Registry, exact: bool) {
    UniqueOwners(r) && Supported(r) && CountersOk(r, exact)
  }

  // ---- what the invariant is for ----

  predicate NamesEndpoint(contracts: map<Uuid, Contract>, g: Grant, e: Name) {
    && g.contract in contracts
    && (contracts[g.contract].parties.first.endpoint == e || contracts[g.contract].parties.second.endpoint == e)
  }

  function UsableFor(contracts: map<Uuid, Contract>, e: Name): Grant -> nat {
    (g: Grant) => if g.Usable() && NamesEndpoint(contracts, g, e) then g.capacity else 0
  }

  /** The summed capacity of the usable grants that name the endpoint. */
  ghost function UsableCapacity(r: Registry, e: Name): nat {
    Sum(r.grants, UsableFor(r.contracts, e))
  }

  /** Distinct grants own distinct reservations, so the sums compare. */
  lemma {:induction false} SumSupported(
      grants: map<Uuid, Grant>, f: Grant -> nat, reservations: map<Uuid, Reservation>, e: Name)
    requires forall g <- grants :: f(grants[g]) > 0 ==>
               exists k <- reservations :: Backs(reservations[k], g, e, f(grants[g]))
    ensures Sum(grants, f) <= Held(reservations, e)
    decreases |grants|
  {
    if grants != map[] {
      var g :| g in grants;
      SumRemove(grants, f, g);
      var rest := grants - {g};
      if f(grants[g]) > 0 {
        var k :| k in reservations && Backs(reservations[k], g, e, f(grants[g]));
        SumRemove(reservations, HeldFor(e), k);
        forall h | h in rest && f(rest[h]) > 0
          ensures exists j <- reservations - {k} :: Backs((reservations - {k})[j], h, e, f(rest[h]))
        {
          var j :| j in reservations && Backs(reservations[j], h, e, f(grants[h]));
          assert j in reservations - {k};
        }
        SumSupported(rest, f, reservations - {k}, e);
      } else {
        SumSupported(rest, f, reservations, e);
      }
    }
  }

  /** No over-commit: usable grants within unreleased reservations, those within the counter, and the
      counter within the declared capacity. */
  lemma NoOvercommit(r: Registry, exact: bool, c: Name, e: Name)
    requires LedgerOk(r, exact) && Declares(r, c, e)
    ensures UsableCapacity(r, e) <= Held(r.reservations, e) <= Counter(r, c, e) <= r.clusters[c].endpoints[e].capacity
  {
    forall g | g in r.grants && UsableFor(r.contracts, e)(r.grants[g]) > 0
      ensures exists k <- r.reservations :: Backs(r.reservations[k], g, e, UsableFor(r.contracts, e)(r.grants[g]))
    {
      assert GrantSupported(r, g);
    }
    SumSupported(r.grants, UsableFor(r.contracts, e), r.reservations, e);
    assert CounterOk(r, c, e, exact);
  }

  // ---- steps that leave the ledger alone ----

  predicate EndpointsKept(a: map<Name, Cluster>, b: map<Name, Cluster>) {
    && a.Keys <= b.Keys
    && forall c <- b :: b[c].endpoints == if c in a then a[c].endpoints else map[]
  }

  predicate NoMoreUsable(a: map<Uuid, Grant>, b: map<Uuid, Grant>) {
    forall g <- b ::
      && (if g in a then b[g].id == a[g].id else b[g].id == g)
      && (b[g].Usable() ==> g in a && a[g].Usable() && b[g].capacity == a[g].capacity && b[g].contract == a[g].contract)
  }

  predicate PartiesKept(a: map<Uuid, Contract>, b: map<Uuid, Contract>) {
    forall c <- a :: c in b && b[c].parties == a[c].parties
  }

  predicate Quiet(r: Registry, s: Registry) {
    && s.reservations == r.reservations && EndpointsKept(r.clusters, s.clusters)
    && NoMoreUsable(r.grants, s.grants) && PartiesKept(r.contracts, s.contracts)
  }

  lemma QuietKeepsUnique(r: Registry, s: Registry)
    requires UniqueOwners(r) && EndpointsKept(r.clusters, s.clusters)
    ensures UniqueOwners(s)
  {
  }

  lemma QuietKeepsSupported(r: Registry, s: Registry)
    requires Supported(r) && Quiet(r, s)
    ensures Supported(s)
  {
    forall g | g in s.grants ensures s.grants[g].id == g && GrantSupported(s, g) {
      if g in r.grants { assert r.grants[g].id == g && GrantSupported(r, g); }
    }
  }

  lemma QuietKeepsLedger(r: Registry, s: Registry, exact: bool)
    requires LedgerOk(r, exact) && Quiet(r, s)
    ensures LedgerOk(s, exact)
  {
    QuietKeepsUnique(r, s);
    QuietKeepsSupported(r, s);
    forall c, e | Declares(s, c, e) ensures CounterOk(s, c, e, exact) {
      assert Declares(r, c, e) && CounterOk(r, c, e, exact);
    }
  }

  // ---- fencing ----

  lemma LeadsPrefix(r: Registry, actions: seq<FenceAction>)
    requires GrantsLead(r, actions) && actions != []
    ensures GrantsLead(r, actions[..|actions| - 1])
  {
    var before := actions[..|actions| - 1];
    assert forall i | 0 <= i < |before| :: before[i] == actions[i] && before[..i] == actions[..i];
  }

  /** The reservation stands, or its grant is no longer usable. */
  predicate ReleasedWith(r: Registry, s: Registry, k: Uuid)
    requires k in r.reservations
  {
    var g := r.reservations[k].grant;
    k in s.reservations && (s.reservations[k] == r.reservations[k] || (g in s.grants ==> !s.grants[g].Usable()))
  }

  lemma StepReleases(r: Registry, s: Applied, trigger: FenceTrigger, a: FenceAction, at: Time, k: Uuid)
    requires k in r.reservations && ReleasedWith(r, s.reg, k)
    requires var g := r.reservations[k].grant;
             a == ReleaseReservation(k) && g in s.reg.grants ==> !s.reg.grants[g].Usable()
    ensures ReleasedWith(r, ApplyAction(s, trigger, a, at).reg, k)
  {
    ActionParts(s, trigger, a, at);
  }

  /** A grant fenced earlier in the plan is not usable when its reservation comes up. */
  lemma FencedBefore(r: Registry, trigger: FenceTrigger, before: seq<FenceAction>, at: Time, g: Uuid)
    requires ApplyPlan(r, trigger, before, at).ok
    requires g in r.grants && r.grants[g].Usable() ==> FenceGrant(g) in before
    ensures var s := ApplyPlan(r, trigger, before, at).reg; g in s.grants ==> !s.grants[g].Usable()
  {
    PlanWithdraws(r, trigger, before, at);
    if g in r.grants {
      PlanOnGrant(r, trigger, before, at, g);
    }
  }

  /** A reservation released by a plan belonged to no grant that is still usable. */
  lemma {:induction false} ReleasedWithGrant(
      r: Registry, trigger: FenceTrigger, actions: seq<FenceAction>, at: Time, k: Uuid)
    requires GrantsLead(r, actions) && k in r.reservations
    ensures ReleasedWith(r, ApplyPlan(r, trigger, actions, at).reg, k)
    decreases |actions|
  {
    if actions != [] {
      var before, a := actions[..|actions| - 1], actions[|actions| - 1];
      LeadsPrefix(r, actions);
      ReleasedWithGrant(r, trigger, before, at, k);
      var s := ApplyPlan(r, trigger, before, at);
      if s.ok {
        if a == ReleaseReservation(k) { FencedBefore(r, trigger, before, at, r.reservations[k].grant); }
        StepReleases(r, s, trigger, a, at, k);
      }
    }
  }

  lemma PlanKeepsSupport(
      r: Registry, trigger: FenceTrigger, actions: seq<FenceAction>, at: Time, g: Uuid, e: Name, amount: nat)
    requires GrantsLead(r, actions) && HasReservation(r, g, e, amount)
    ensures var s := ApplyPlan(r, trigger, actions, at).reg;
            g in s.grants && s.grants[g].Usable() ==> HasReservation(s, g, e, amount)
  {
    var k :| k in r.reservations && Backs(r.reservations[k], g, e, amount);
    ReleasedWithGrant(r, trigger, actions, at, k);
  }

  lemma PlanKeepsSupported(r: Registry, trigger: FenceTrigger, actions: seq<FenceAction>, at: Time)
    requires GrantsLead(r, actions) && Supported(r)
    ensures Supported(ApplyPlan(r, trigger, actions, at).reg)
  {
    var s := ApplyPlan(r, trigger, actions, at).reg;
    PlanWithdraws(r, trigger, actions, at);
    forall g | g in s.grants ensures s.grants[g].id == g && GrantSupported(s, g) {
      assert GrantWithdrawnOnly(r.grants[g], s.grants[g]) && r.grants[g].id == g;
      if s.grants[g].Usable() {
        assert GrantSupported(r, g);
        var c := r.grants[g].contract;
        assert ContractWithdrawnOnly(r.contracts[c], s.contracts[c]);
        PlanKeepsSupport(r, trigger, actions, at, g, r.contracts[c].parties.first.endpoint, r.grants[g].capacity);
        PlanKeepsSupport(r, trigger, actions, at, g, r.contracts[c].parties.second.endpoint, r.grants[g].capacity);
      }
    }
  }

  /** Every plan whose releases follow their grants, complete or stopped midway. */
  lemma PlanKeepsLedger(r: Registry, trigger: FenceTrigger, actions: seq<FenceAction>, at: Time, exact: bool)
    requires GrantsLead(r, actions) && LedgerOk(r, exact)
    ensures LedgerOk(ApplyPlan(r, trigger, actions, at).reg, exact)
  {
    var s := ApplyPlan(r, trigger, actions, at).reg;
    PlanWithdraws(r, trigger, actions, at);
    WithdrawnKeepsShape(r, s);
    PlanKeepsSupported(r, trigger, actions, at);
    forall c, e | Declares(s, c, e) ensures CounterOk(s, c, e, exact) {
      LoweredDeclares(r, s, c, e);
      assert CounterOk(r, c, e, exact);
      PlanKeepsGap(r, trigger, actions, at, c, e);
      assert ClusterLowered(r.clusters[c], s.clusters[c]);
      assert EndpointLowered(r.clusters[c].endpoints[e], s.clusters[c].endpoints[e]);
    }
  }

  // ---- reserving ----

  predicate RoomFor(r: Registry, id: Uuid) {
    id != 0 && |r.reservations| < MAX_RESERVATIONS
  }

  lemma ReserveSideKeepsSupported(r: Registry, grant: Uuid, amount: nat, party: Party, id: Uuid, now: Time)
    requires Supported(r) && id !in r.reservations
    ensures Supported(ReserveSide(r, grant, amount, party, id, now).reg)
  {
    var s := ReserveSide(r, grant, amount, party, id, now).reg;
    assert s.grants == r.grants && s.contracts == r.contracts;
    assert forall k <- r.reservations :: k in s.reservations && s.reservations[k] == r.reservations[k];
    forall g | g in s.grants ensures s.grants[g].id == g && GrantSupported(s, g) {
      assert r.grants[g].id == g && GrantSupported(r, g);
    }
  }

  lemma RaisedHeld(r: Registry, grant: Uuid, amount: nat, party: Party, id: Uuid, now: Time, e: Name)
    requires id !in r.reservations && CanReserve(r, party, amount)
    ensures var s := ReserveSide(r, grant, amount, party, id, now);
            Held(s.reg.reservations, e) == Held(r.reservations, e) + if s.ok && e == party.endpoint then amount else 0
  {
    var record := Reservation(id, grant, party.endpoint, party.cluster, amount, false,
                              ReservationNotes(now, 0, 0, NO_PROVENANCE));
    SumInsert(r.reservations, HeldFor(e), id, record);
  }

  lemma ReserveSideCounter(
      r: Registry, grant: Uuid, amount: nat, party: Party, id: Uuid, now: Time, exact: bool, c: Name, e: Name)
    requires UniqueOwners(r) && id !in r.reservations && (exact ==> RoomFor(r, id))
    requires Declares(r, c, e) && CounterOk(r, c, e, exact)
    ensures var s := ReserveSide(r, grant, amount, party, id, now).reg; Declares(s, c, e) && CounterOk(s, c, e, exact)
  {
    if CanReserve(r, party, amount) { RaisedHeld(r, grant, amount, party, id, now, e); }
  }

  lemma ReserveSideKeepsUnique(
      r: Registry, grant: Uuid, amount: nat, party: Party, id: Uuid, now: Time, c: Name, e: Name)
    ensures Declares(ReserveSide(r, grant, amount, party, id, now).reg, c, e) <==> Declares(r, c, e)
  {
  }

  lemma SameDeclarations(r: Registry, s: Registry)
    requires UniqueOwners(r) && forall c, e :: Declares(s, c, e) <==> Declares(r, c, e)
    ensures UniqueOwners(s)
  {
    forall c, d, e | c in s.clusters && d in s.clusters && e in s.clusters[c].endpoints && e in s.clusters[d].endpoints
      ensures c == d
    {
      assert Declares(s, c, e) && Declares(s, d, e);
      assert Declares(r, c, e) && Declares(r, d, e);
    }
  }

  lemma ReserveSideKeepsLedger(r: Registry, grant: Uuid, amount: nat, party: Party, id: Uuid, now: Time, exact: bool)
    requires LedgerOk(r, exact) && id !in r.reservations && (exact ==> RoomFor(r, id))
    ensures LedgerOk(ReserveSide(r, grant, amount, party, id, now).reg, exact)
  {
    var s := ReserveSide(r, grant, amount, party, id, now).reg;
    ReserveSideKeepsSupported(r, grant, amount, party, id, now);
    forall c, e ensures Declares(s, c, e) <==> Declares(r, c, e) {
      ReserveSideKeepsUnique(r, grant, amount, party, id, now, c, e);
    }
    SameDeclarations(r, s);
    forall c, e | Declares(s, c, e) ensures CounterOk(s, c, e, exact) {
      assert Declares(r, c, e) && CounterOk(r, c, e, exact);
      ReserveSideCounter(r, grant, amount, party, id, now, exact, c, e);
    }
  }

  lemma ReserveSideGrows(r: Registry, grant: Uuid, amount: nat, party: Party, id: Uuid, now: Time)
    ensures var s := ReserveSide(r, grant, amount, party, id, now);
            && s.reg.grants == r.grants && s.reg.contracts == r.contracts
            && r.reservations.Keys <= s.reg.reservations.Keys <= r.reservations.Keys + {id}
            && (forall k <- r.reservations :: k != id ==> s.reg.reservations[k] == r.reservations[k])
            && (s.ok ==> id in s.reg.reservations && Backs(s.reg.reservations[id], grant, party.endpoint, amount))
  {
  }

  /** Fresh identities for the two sides, and room for both records where exactness is claimed. */
  predicate FreshIds(r: Registry, ids: Two<Uuid>, exact: bool) {
    && ids.first !in r.reservations && ids.second !in r.reservations && ids.first != ids.second
    && (exact ==> ids.first != 0 && ids.second != 0 && |r.reservations| + 2 <= MAX_RESERVATIONS)
  }

  lemma AtMostOneMore(a: set<Uuid>, b: set<Uuid>, id: Uuid)
    requires a <= b <= a + {id}
    ensures |b| <= |a| + 1
  {
    if id in b { assert b - {id} <= a; SubsetSize(b - {id}, a); } else { SubsetSize(b, a); }
  }

  lemma {:induction false} SubsetSize(a: set<Uuid>, b: set<Uuid>)
    requires a <= b
    ensures |a| <= |b|
    decreases |a|
  {
    if a != {} {
      var x :| x in a;
      SubsetSize(a - {x}, b - {x});
    }
  }

  /** `reserve_capacity`, including a second side that fails after the first was reserved. */
  lemma ReserveKeepsLedger(r: Registry, g: Grant, ids: Two<Uuid>, now: Time, exact: bool)
    requires LedgerOk(r, exact) && FreshIds(r, ids, exact)
    ensures LedgerOk(Reserve(r, g, ids, now).reg, exact)
  {
    if g.contract in r.contracts {
      var parties := r.contracts[g.contract].parties;
      var one := ReserveSide(r, g.id, g.capacity, parties.first, ids.first, now);
      ReserveSideKeepsLedger(r, g.id, g.capacity, parties.first, ids.first, now, exact);
      ReserveSideGrows(r, g.id, g.capacity, parties.first, ids.first, now);
      AtMostOneMore(r.reservations.Keys, one.reg.reservations.Keys, ids.first);
      if one.ok {
        ReserveSideKeepsLedger(one.reg, g.id, g.capacity, parties.second, ids.second, now, exact);
      }
    }
  }

  lemma ReserveBacksBoth(r: Registry, g: Grant, ids: Two<Uuid>, now: Time)
    requires ids.first != ids.second && Reserve(r, g, ids, now).ok
    ensures var s := Reserve(r, g, ids, now).reg;
            && s.grants == r.grants && s.contracts == r.contracts && g.contract in r.contracts
            && HasReservation(s, g.id, r.contracts[g.contract].parties.first.endpoint, g.capacity)
            && HasReservation(s, g.id, r.contracts[g.contract].parties.second.endpoint, g.capacity)
  {
    var parties := r.contracts[g.contract].parties;
    var one := ReserveSide(r, g.id, g.capacity, parties.first, ids.first, now);
    ReserveSideGrows(r, g.id, g.capacity, parties.first, ids.first, now);
    ReserveSideGrows(one.reg, g.id, g.capacity, parties.second, ids.second, now);
    var s := Reserve(r, g, ids, now).reg;
    assert Backs(s.reservations[ids.first], g.id, parties.first.endpoint, g.capacity);
    assert Backs(s.reservations[ids.second], g.id, parties.second.endpoint, g.capacity);
  }

  lemma AbortIsQuiet(s: Coord, g: Uuid)
    ensures Quiet(s.reg, Abort(s, g).reg)
  {
  }

  /** A grant becomes usable only once both its reservations are in the ledger. */
  lemma CommitKeepsLedger(r: Registry, g: Uuid, exact: bool)
    requires LedgerOk(r, exact) && g in r.grants && r.grants[g].contract in r.contracts
    requires var parties := r.contracts[r.grants[g].contract].parties;
             HasReservation(r, g, parties.first.endpoint, r.grants[g].capacity)
             && HasReservation(r, g, parties.second.endpoint, r.grants[g].capacity)
    ensures LedgerOk(WithGrant(r, g, r.grants[g].(state := Committed)), exact)
  {
    var s := WithGrant(r, g, r.grants[g].(state := Committed));
    assert s.reservations == r.reservations && s.contracts == r.contracts && s.clusters == r.clusters;
    forall x | x in s.grants ensures s.grants[x].id == x && GrantSupported(s, x) {
      assert r.grants[x].id == x && GrantSupported(r, x);
    }
    forall c, e | Declares(s, c, e) ensures CounterOk(s, c, e, exact) {
      assert Declares(r, c, e) && CounterOk(r, c, e, exact);
    }
  }

  lemma ReservedCommits(s: Coord, g: Uuid, ids: Two<Uuid>, now: Time, exact: bool)
    requires LedgerOk(s.reg, exact) && FreshIds(s.reg, ids, exact) && g in s.reg.grants
    requires Reserve(s.reg, s.reg.grants[g], ids, now).ok
    ensures LedgerOk(WithGrant(Reserve(s.reg, s.reg.grants[g], ids, now).reg, g, s.reg.grants[g].(state := Committed)),
                     exact)
  {
    var grant := s.reg.grants[g];
    assert grant.id == g;
    ReserveKeepsLedger(s.reg, grant, ids, now, exact);
    ReserveBacksBoth(s.reg, grant, ids, now);
    CommitKeepsLedger(Reserve(s.reg, grant, ids, now).reg, g, exact);
  }

  lemma UnreservedAborts(s: Coord, g: Uuid, ids: Two<Uuid>, now: Time, exact: bool)
    requires LedgerOk(s.reg, exact) && FreshIds(s.reg, ids, exact) && g in s.reg.grants
    ensures LedgerOk(Abort(s.(reg := Reserve(s.reg, s.reg.grants[g], ids, now).reg), g).reg, exact)
  {
    var reserved := Reserve(s.reg, s.reg.grants[g], ids, now).reg;
    ReserveKeepsLedger(s.reg, s.reg.grants[g], ids, now, exact);
    AbortIsQuiet(s.(reg := reserved), g);
    QuietKeepsLedger(reserved, Abort(s.(reg := reserved), g).reg, exact);
  }

  lemma FinaliseShape(s: Coord, g: Uuid, ids: Two<Uuid>, now: Time)
    ensures var t := Finalise(s, g, ids, now).coord.reg;
            || t == s.reg
            || (&& g in s.reg.grants
                && var reserved := Reserve(s.reg, s.reg.grants[g], ids, now);
                   || t == Abort(s.(reg := reserved.reg), g).reg
                   || (reserved.ok && t == WithGrant(reserved.reg, g, s.reg.grants[g].(state := Committed))))
  {
  }

  lemma FinaliseKeepsLedger(s: Coord, g: Uuid, ids: Two<Uuid>, now: Time, exact: bool)
    requires LedgerOk(s.reg, exact) && FreshIds(s.reg, ids, exact)
    ensures LedgerOk(Finalise(s, g, ids, now).coord.reg, exact)
  {
    FinaliseShape(s, g, ids, now);
    var t := Finalise(s, g, ids, now).coord.reg;
    if t != s.reg {
      var reserved := Reserve(s.reg, s.reg.grants[g], ids, now);
      if t == Abort(s.(reg := reserved.reg), g).reg {
        UnreservedAborts(s, g, ids, now, exact);
      } else {
        ReservedCommits(s, g, ids, now, exact);
      }
    }
  }
}
