/** How far a fence plan gets.  Every withdrawn grant or contract costs an audit line, and the first line
    the trail refuses ends the plan; whether that happens, and what it does to repeating or reordering a
    plan, can be read off the registry and the plan beforehand. */
module FenceReach {
  import opened Model
  import opened Engine
  import opened Fencing
  import opened FenceEffects

  // ---- how many audit lines a plan writes ----

  /** The withdrawals of the plan that cost an audit line. */
  function Lines(r: Registry, actions: seq<FenceAction>): set<FenceAction> {
    set a | a in actions && !a.ReleaseReservation? && Bites(r, a)
  }

  /** The audit trail takes that many more lines. */
  predicate TrailTakes(r: Registry, lines: nat) {
    lines == 0 || |r.audit| + lines <= MAX_AUDIT_RECORDS
  }

  predicate HasTrailRoom(r: Registry, actions: seq<FenceAction>) {
    TrailTakes(r, |Lines(r, actions)|)
  }

  lemma LinesExtend(r: Registry, actions: seq<FenceAction>)
    requires actions != []
    ensures var before, a := actions[..|actions| - 1], actions[|actions| - 1];
            Lines(r, actions) == if !a.ReleaseReservation? && Bites(r, a) then Lines(r, before) + {a}
              else Lines(r, before)
  {
    forall x ensures x in actions <==> x in actions[..|actions| - 1] || x == actions[|actions| - 1] {
      MembersOf(actions, x);
    }
  }

  /** After a plan that ran to its end, what still bites is what bit before and was not named. */
  lemma BitesAfter(r: Registry, trigger: FenceTrigger, actions: seq<FenceAction>, at: Time, a: FenceAction)
    requires ApplyPlan(r, trigger, actions, at).ok
    ensures Bites(ApplyPlan(r, trigger, actions, at).reg, a) <==> Bites(r, a) && a !in actions
  {
    PlanEffect(r, trigger, actions, at);
  }

  lemma ActionWrites(s: Applied, trigger: FenceTrigger, a: FenceAction, at: Time)
    requires s.ok
    ensures var t := ApplyAction(s, trigger, a, at);
            if !a.ReleaseReservation? && Bites(s.reg, a)
            then (t.ok <==> |s.reg.audit| < MAX_AUDIT_RECORDS) && (t.ok ==> |t.reg.audit| == |s.reg.audit| + 1)
            else t.ok && t.reg.audit == s.reg.audit
  {
  }

  /** A plan runs to its end exactly when the trail takes its lines, and then it has written just those. */
  lemma {:induction false} RunsToEnd(r: Registry, trigger: FenceTrigger, actions: seq<FenceAction>, at: Time)
    ensures ApplyPlan(r, trigger, actions, at).ok <==> HasTrailRoom(r, actions)
    ensures HasTrailRoom(r, actions) ==>
            |ApplyPlan(r, trigger, actions, at).reg.audit| == |r.audit| + |Lines(r, actions)|
    decreases |actions|
  {
    if actions == [] {
      assert Lines(r, actions) == {};
    } else {
      var before, a := actions[..|actions| - 1], actions[|actions| - 1];
      RunsToEnd(r, trigger, before, at);
      LinesExtend(r, actions);
      var s := ApplyPlan(r, trigger, before, at);
      if s.ok {
        BitesAfter(r, trigger, before, at, a);
        ActionWrites(s, trigger, a, at);
        if Bites(r, a) && !a.ReleaseReservation? && a in before { assert Lines(r, actions) == Lines(r, before); }
      } else {
        SmallerSet(Lines(r, before), Lines(r, actions));
      }
    }
  }

  // ---- where a plan stops ----

  lemma {:induction false} StopsForGood(r: Registry, trigger: FenceTrigger, actions: seq<FenceAction>, at: Time, i: nat)
    requires i <= |actions| && !ApplyPlan(r, trigger, actions[..i], at).ok
    ensures ApplyPlan(r, trigger, actions, at) == ApplyPlan(r, trigger, actions[..i], at)
    decreases |actions|
  {
    if i == |actions| {
      assert actions[..i] == actions;
    } else {
      var before := actions[..|actions| - 1];
      assert before[..i] == actions[..i];
      StopsForGood(r, trigger, before, at, i);
    }
  }

  lemma OtherStillBites(r: Registry, trigger: FenceTrigger, a: FenceAction, at: Time, x: FenceAction)
    requires Bites(r, x) && a != x
    ensures Bites(Step(r, trigger, a, at), x)
  {
  }

  /** What a plan does not name it does not withdraw. */
  lemma {:induction false} UnnamedStillBites(
      r: Registry, trigger: FenceTrigger, actions: seq<FenceAction>, at: Time, x: FenceAction)
    requires Bites(r, x) && x !in actions
    ensures Bites(ApplyPlan(r, trigger, actions, at).reg, x)
    decreases |actions|
  {
    if actions != [] {
      var before, a := actions[..|actions| - 1], actions[|actions| - 1];
      UnnamedStillBites(r, trigger, before, at, x);
      var s := ApplyPlan(r, trigger, before, at);
      if s.ok {
        OtherStillBites(s.reg, trigger, a, at, x);
        ActionParts(s, trigger, a, at);
      }
    }
  }

  lemma {:induction false} PrefixWithdraws(
      r: Registry, trigger: FenceTrigger, actions: seq<FenceAction>, at: Time, i: nat)
    requires i <= |actions|
    ensures Withdrawn(ApplyPlan(r, trigger, actions[..i], at).reg, ApplyPlan(r, trigger, actions, at).reg)
    decreases |actions|
  {
    if i == |actions| {
      assert actions[..i] == actions;
      WithdrawnReflexive(ApplyPlan(r, trigger, actions, at).reg);
    } else {
      var before, a := actions[..|actions| - 1], actions[|actions| - 1];
      PrefixWithdraws(r, trigger, before, at, i);
      assert before[..i] == actions[..i];
      var s := ApplyPlan(r, trigger, before, at);
      if s.ok {
        StepWithdraws(s.reg, trigger, a, at);
        ActionParts(s, trigger, a, at);
        WithdrawnTransitive(ApplyPlan(r, trigger, actions[..i], at).reg, s.reg, ApplyPlan(r, trigger, actions, at).reg);
      }
    }
  }

  /** What has been withdrawn stays withdrawn. */
  lemma WithdrawnNoLongerBites(r: Registry, s: Registry, a: FenceAction)
    requires Withdrawn(r, s) && !Bites(r, a)
    ensures !Bites(s, a)
  {
    match a
    case FenceGrant(g) => if g in r.grants { assert GrantWithdrawnOnly(r.grants[g], s.grants[g]); }
    case FenceContract(c) => if c in r.contracts { assert ContractWithdrawnOnly(r.contracts[c], s.contracts[c]); }
    case ReleaseReservation(k) =>
      if k in r.reservations { assert ReservationReleasedOnly(r.reservations[k], s.reservations[k]); }
  }

  lemma StepStopsBiting(s: Applied, trigger: FenceTrigger, a: FenceAction, at: Time)
    ensures !Bites(ApplyAction(s, trigger, a, at).reg, a)
  {
    ActionParts(s, trigger, a, at);
  }

  // ---- what a plan reaches ----

  /** The action at `i` is the first of its kind and has something to withdraw. */
  predicate FirstBite(r: Registry, actions: seq<FenceAction>, i: nat) {
    i < |actions| && Bites(r, actions[i]) && actions[i] !in actions[..i]
  }

  /** No action with something to withdraw lies after the first refused line. */
  predicate Reaches(r: Registry, actions: seq<FenceAction>) {
    forall i: nat | i < |actions| && FirstBite(r, actions, i) :: HasTrailRoom(r, actions[..i])
  }

  /** Nothing the plan names is left to withdraw. */
  predicate Settled(r: Registry, actions: seq<FenceAction>) {
    forall a <- actions :: !Bites(r, a)
  }

  lemma {:induction false} FirstOccurrence(actions: seq<FenceAction>, a: FenceAction) returns (i: nat)
    requires a in actions
    ensures i < |actions| && actions[i] == a && a !in actions[..i]
    decreases |actions|
  {
    var before := actions[..|actions| - 1];
    if a in before {
      i := FirstOccurrence(before, a);
      assert before[..i] == actions[..i];
    } else {
      i := |actions| - 1;
      MembersOf(actions, a);
    }
  }

  lemma ReachedIsWithdrawn(r: Registry, trigger: FenceTrigger, actions: seq<FenceAction>, at: Time, i: nat)
    requires i < |actions| && HasTrailRoom(r, actions[..i])
    ensures !Bites(ApplyPlan(r, trigger, actions, at).reg, actions[i])
  {
    var upTo := actions[..i + 1];
    assert upTo[..|upTo| - 1] == actions[..i];
    RunsToEnd(r, trigger, actions[..i], at);
    StepStopsBiting(ApplyPlan(r, trigger, actions[..i], at), trigger, actions[i], at);
    PrefixWithdraws(r, trigger, actions, at, i + 1);
    WithdrawnNoLongerBites(ApplyPlan(r, trigger, upTo, at).reg, ApplyPlan(r, trigger, actions, at).reg, actions[i]);
  }

  lemma UnreachedStillBites(r: Registry, trigger: FenceTrigger, actions: seq<FenceAction>, at: Time, i: nat)
    requires FirstBite(r, actions, i) && !HasTrailRoom(r, actions[..i])
    ensures Bites(ApplyPlan(r, trigger, actions, at).reg, actions[i])
  {
    RunsToEnd(r, trigger, actions[..i], at);
    StopsForGood(r, trigger, actions, at, i);
    UnnamedStillBites(r, trigger, actions[..i], at, actions[i]);
  }

  /** A plan leaves nothing to do exactly when it reaches all it names. */
  lemma SettlesExactly(r: Registry, trigger: FenceTrigger, actions: seq<FenceAction>, at: Time)
    ensures Settled(ApplyPlan(r, trigger, actions, at).reg, actions) <==> Reaches(r, actions)
  {
    var s := ApplyPlan(r, trigger, actions, at).reg;
    if Settled(s, actions) {
      forall i: nat | FirstBite(r, actions, i) ensures HasTrailRoom(r, actions[..i]) {
        if !HasTrailRoom(r, actions[..i]) { UnreachedStillBites(r, trigger, actions, at, i); }
      }
    }
    if Reaches(r, actions) {
      forall a | a in actions ensures !Bites(s, a) {
        if Bites(r, a) {
          var i := FirstOccurrence(actions, a);
          assert FirstBite(r, actions, i);
          ReachedIsWithdrawn(r, trigger, actions, at, i);
        } else {
          PlanWithdraws(r, trigger, actions, at);
          WithdrawnNoLongerBites(r, s, a);
        }
      }
    }
  }

  // ---- applying a plan twice ----

  lemma {:induction false} SettledIsUnchanged(r: Registry, trigger: FenceTrigger, actions: seq<FenceAction>, at: Time)
    requires Settled(r, actions)
    ensures ApplyPlan(r, trigger, actions, at).reg == r && ApplyPlan(r, trigger, actions, at).ok
    decreases |actions|
  {
    if actions != [] {
      SettledIsUnchanged(r, trigger, actions[..|actions| - 1], at);
    }
  }

  lemma {:induction false} FirstBiteExists(r: Registry, actions: seq<FenceAction>) returns (i: nat)
    requires !Settled(r, actions)
    ensures i < |actions| && Bites(r, actions[i]) && Settled(r, actions[..i])
    decreases |actions|
  {
    var before := actions[..|actions| - 1];
    if Settled(r, before) {
      i := |actions| - 1;
      var a :| a in actions && Bites(r, a);
      MembersOf(actions, a);
    } else {
      i := FirstBiteExists(r, before);
      assert before[..i] == actions[..i];
    }
  }

  /** A plan that names something left to withdraw changes the registry. */
  lemma UnsettledChanges(r: Registry, trigger: FenceTrigger, actions: seq<FenceAction>, at: Time)
    requires !Settled(r, actions)
    ensures ApplyPlan(r, trigger, actions, at).reg != r
  {
    var i := FirstBiteExists(r, actions);
    assert Lines(r, actions[..i]) == {};
    ReachedIsWithdrawn(r, trigger, actions, at, i);
  }

  /** Applying a plan again changes nothing exactly when the plan reaches all it names the first time. */
  lemma ApplyTwice(r: Registry, trigger: FenceTrigger, actions: seq<FenceAction>, at: Time, again: Time)
    ensures var once := ApplyPlan(r, trigger, actions, at).reg;
            ApplyPlan(once, trigger, actions, again).reg == once <==> Reaches(r, actions)
  {
    var once := ApplyPlan(r, trigger, actions, at).reg;
    SettlesExactly(r, trigger, actions, at);
    if Settled(once, actions) {
      SettledIsUnchanged(once, trigger, actions, again);
    } else {
      UnsettledChanges(once, trigger, actions, again);
    }
  }

  /** In particular whenever the trail takes all its lines. */
  lemma RoomReaches(r: Registry, actions: seq<FenceAction>)
    requires HasTrailRoom(r, actions)
    ensures Reaches(r, actions)
  {
    forall i: nat | FirstBite(r, actions, i) ensures HasTrailRoom(r, actions[..i]) {
      FewerLines(r, actions[..i], Lines(r, actions));
    }
  }

  lemma FewerLines(r: Registry, actions: seq<FenceAction>, lines: set<FenceAction>)
    requires Lines(r, actions) <= lines && TrailTakes(r, |lines|)
    ensures HasTrailRoom(r, actions)
  {
    SmallerSet(Lines(r, actions), lines);
  }

  lemma SmallerSet<T>(a: set<T>, b: set<T>)
    requires a <= b
    ensures |a| <= |b|
  {
    assert b == a + (b - a);
  }

  // ---- the order of a plan ----

  ghost predicate SameActions(one: seq<FenceAction>, two: seq<FenceAction>) {
    forall a :: a in one <==> a in two
  }

  /** Grants, contracts, reservations, counters and topology are the same. */
  predicate SameRecords(s: Registry, t: Registry) {
    s.(audit := []) == t.(audit := [])
  }

  /** The order does not decide whether a plan runs to its end. */
  lemma OrderKeepsSuccess(r: Registry, trigger: FenceTrigger, one: seq<FenceAction>, two: seq<FenceAction>, at: Time)
    requires SameActions(one, two)
    ensures ApplyPlan(r, trigger, one, at).ok <==> ApplyPlan(r, trigger, two, at).ok
  {
    assert Lines(r, one) == Lines(r, two);
    RunsToEnd(r, trigger, one, at);
    RunsToEnd(r, trigger, two, at);
  }

  /** Whatever has something to withdraw is reached even when it comes last. */
  predicate OrderFree(r: Registry, actions: seq<FenceAction>) {
    forall x <- actions :: Bites(r, x) ==> TrailTakes(r, |Lines(r, actions) - {x}|)
  }

  lemma RoomIsOrderFree(r: Registry, actions: seq<FenceAction>)
    requires HasTrailRoom(r, actions)
    ensures OrderFree(r, actions)
  {
    forall x | x in actions && Bites(r, x) ensures TrailTakes(r, |Lines(r, actions) - {x}|) {
      SmallerSet(Lines(r, actions) - {x}, Lines(r, actions));
    }
  }

  lemma PrefixLines(r: Registry, actions: seq<FenceAction>, i: nat)
    requires FirstBite(r, actions, i)
    ensures Lines(r, actions[..i]) <= Lines(r, actions) - {actions[i]}
  {
    forall a | a in actions[..i] ensures a in actions && a != actions[i] {}
  }

  lemma FreeReaches(r: Registry, one: seq<FenceAction>, two: seq<FenceAction>)
    requires SameActions(one, two) && OrderFree(r, one)
    ensures Reaches(r, two)
  {
    assert Lines(r, one) == Lines(r, two);
    forall i: nat | FirstBite(r, two, i) ensures HasTrailRoom(r, two[..i]) {
      assert two[i] in one;
      PrefixLines(r, two, i);
      FewerLines(r, two[..i], Lines(r, one) - {two[i]});
    }
  }

  /** A contract is as it was or as the plan leaves it. */
  predicate ContractFencedOnly(a: Contract, b: Contract, trigger: FenceTrigger, at: Time) {
    b == a || b == a.(state := FencedContractState(trigger), updatedAt := at)
  }

  lemma ContractStep(s: Applied, trigger: FenceTrigger, a: FenceAction, at: Time, was: Contract, c: Uuid)
    requires c in s.reg.contracts && ContractFencedOnly(was, s.reg.contracts[c], trigger, at)
    ensures var t := ApplyAction(s, trigger, a, at).reg;
            c in t.contracts && ContractFencedOnly(was, t.contracts[c], trigger, at)
  {
    ActionParts(s, trigger, a, at);
  }

  lemma {:induction false} ContractsFencedOnly(
      r: Registry, trigger: FenceTrigger, actions: seq<FenceAction>, at: Time, c: Uuid)
    requires c in r.contracts
    ensures var s := ApplyPlan(r, trigger, actions, at).reg;
            c in s.contracts && ContractFencedOnly(r.contracts[c], s.contracts[c], trigger, at)
    decreases |actions|
  {
    if actions != [] {
      var before := actions[..|actions| - 1];
      ContractsFencedOnly(r, trigger, before, at, c);
      ContractStep(ApplyPlan(r, trigger, before, at), trigger, actions[|actions| - 1], at, r.contracts[c], c);
    }
  }

  /** What a plan does not name is as it was. */
  predicate Untouched(r: Registry, s: Registry, x: FenceAction) {
    match x
    case FenceGrant(g) => g in r.grants ==> g in s.grants && s.grants[g] == r.grants[g]
    case FenceContract(c) => c in r.contracts ==> c in s.contracts && s.contracts[c] == r.contracts[c]
    case ReleaseReservation(k) => k in r.reservations ==> k in s.reservations && s.reservations[k] == r.reservations[k]
  }

  lemma {:induction false} UnnamedUntouched(
      r: Registry, trigger: FenceTrigger, actions: seq<FenceAction>, at: Time, x: FenceAction)
    requires x !in actions
    ensures Untouched(r, ApplyPlan(r, trigger, actions, at).reg, x)
    decreases |actions|
  {
    if actions != [] {
      var before, a := actions[..|actions| - 1], actions[|actions| - 1];
      UnnamedUntouched(r, trigger, before, at, x);
      var s := ApplyPlan(r, trigger, before, at);
      if s.ok { ActionParts(s, trigger, a, at); }
    }
  }

  /** A plan that reaches all it names withdraws exactly that, even when its last line is refused. */
  lemma ReachedEffect(r: Registry, trigger: FenceTrigger, actions: seq<FenceAction>, at: Time)
    requires Reaches(r, actions)
    ensures ApplyPlan(r, trigger, actions, at).reg.grants == GrantsAfter(r.grants, actions)
    ensures ApplyPlan(r, trigger, actions, at).reg.contracts == ContractsAfter(r.contracts, trigger, actions, at)
    ensures ApplyPlan(r, trigger, actions, at).reg.reservations == ReservationsAfter(r.reservations, actions)
  {
    var s := ApplyPlan(r, trigger, actions, at).reg;
    PlanWithdraws(r, trigger, actions, at);
    SettlesExactly(r, trigger, actions, at);
    GrantsReached(r, s, trigger, actions, at);
    ContractsReached(r, s, trigger, actions, at);
    ReservationsReached(r, s, trigger, actions, at);
  }

  lemma GrantsReached(r: Registry, s: Registry, trigger: FenceTrigger, actions: seq<FenceAction>, at: Time)
    requires s == ApplyPlan(r, trigger, actions, at).reg && Settled(s, actions) && GrantsWithdrawn(r.grants, s.grants)
    ensures s.grants == GrantsAfter(r.grants, actions)
  {
    forall g | g in r.grants ensures s.grants[g] == GrantsAfter(r.grants, actions)[g] {
      assert GrantWithdrawnOnly(r.grants[g], s.grants[g]);
      if FenceGrant(g) in actions { assert !Bites(s, FenceGrant(g)); }
      else { UnnamedUntouched(r, trigger, actions, at, FenceGrant(g)); }
    }
  }

  lemma ContractsReached(r: Registry, s: Registry, trigger: FenceTrigger, actions: seq<FenceAction>, at: Time)
    requires s == ApplyPlan(r, trigger, actions, at).reg && Settled(s, actions)
    requires ContractsWithdrawn(r.contracts, s.contracts)
    ensures s.contracts == ContractsAfter(r.contracts, trigger, actions, at)
  {
    forall c | c in r.contracts ensures s.contracts[c] == ContractsAfter(r.contracts, trigger, actions, at)[c] {
      assert ContractWithdrawnOnly(r.contracts[c], s.contracts[c]);
      ContractsFencedOnly(r, trigger, actions, at, c);
      if FenceContract(c) in actions { assert !Bites(s, FenceContract(c)); }
      else { UnnamedUntouched(r, trigger, actions, at, FenceContract(c)); }
    }
  }

  lemma ReservationsReached(r: Registry, s: Registry, trigger: FenceTrigger, actions: seq<FenceAction>, at: Time)
    requires s == ApplyPlan(r, trigger, actions, at).reg && Settled(s, actions)
    requires ReservationsReleased(r.reservations, s.reservations)
    ensures s.reservations == ReservationsAfter(r.reservations, actions)
  {
    forall k | k in r.reservations ensures s.reservations[k] == ReservationsAfter(r.reservations, actions)[k] {
      assert ReservationReleasedOnly(r.reservations[k], s.reservations[k]);
      if ReleaseReservation(k) in actions { assert !Bites(s, ReleaseReservation(k)); }
      else { UnnamedUntouched(r, trigger, actions, at, ReleaseReservation(k)); }
    }
  }

  lemma AfterSame(r: Registry, trigger: FenceTrigger, one: seq<FenceAction>, two: seq<FenceAction>, at: Time)
    requires SameActions(one, two)
    ensures GrantsAfter(r.grants, one) == GrantsAfter(r.grants, two)
    ensures ContractsAfter(r.contracts, trigger, one, at) == ContractsAfter(r.contracts, trigger, two, at)
    ensures ReservationsAfter(r.reservations, one) == ReservationsAfter(r.reservations, two)
  {
  }

  lemma CountersDetermined(r: Registry, s: Registry, t: Registry)
    requires ClustersLowered(r.clusters, s.clusters) && ClustersLowered(r.clusters, t.clusters)
    requires forall c, e :: Declares(r, c, e) ==>
               Declares(s, c, e) && Declares(t, c, e) && Counter(s, c, e) == Counter(t, c, e)
    ensures s.clusters == t.clusters
  {
    forall c | c in r.clusters ensures s.clusters[c] == t.clusters[c] {
      var x, y := s.clusters[c], t.clusters[c];
      assert ClusterLowered(r.clusters[c], x) && ClusterLowered(r.clusters[c], y);
      forall e | e in r.clusters[c].endpoints ensures x.endpoints[e] == y.endpoints[e] {
        assert Declares(r, c, e);
        assert EndpointLowered(r.clusters[c].endpoints[e], x.endpoints[e]);
        assert EndpointLowered(r.clusters[c].endpoints[e], y.endpoints[e]);
      }
      assert x.endpoints == y.endpoints;
    }
  }

  lemma SameCounters(r: Registry, trigger: FenceTrigger, one: seq<FenceAction>, two: seq<FenceAction>, at: Time)
    requires Covered(r)
    requires ApplyPlan(r, trigger, one, at).reg.reservations == ApplyPlan(r, trigger, two, at).reg.reservations
    ensures ApplyPlan(r, trigger, one, at).reg.clusters == ApplyPlan(r, trigger, two, at).reg.clusters
  {
    var s, t := ApplyPlan(r, trigger, one, at).reg, ApplyPlan(r, trigger, two, at).reg;
    PlanWithdraws(r, trigger, one, at);
    PlanWithdraws(r, trigger, two, at);
    forall c, e | Declares(r, c, e)
      ensures Declares(s, c, e) && Declares(t, c, e) && Counter(s, c, e) == Counter(t, c, e)
    {
      PlanKeepsGap(r, trigger, one, at, c, e);
      PlanKeepsGap(r, trigger, two, at, c, e);
    }
    CountersDetermined(r, s, t);
  }

  lemma FreeIsIrrelevant(r: Registry, trigger: FenceTrigger, one: seq<FenceAction>, two: seq<FenceAction>, at: Time)
    requires Covered(r) && SameActions(one, two) && OrderFree(r, one)
    ensures SameRecords(ApplyPlan(r, trigger, one, at).reg, ApplyPlan(r, trigger, two, at).reg)
  {
    FreeReaches(r, one, one);
    FreeReaches(r, one, two);
    ReachedEffect(r, trigger, one, at);
    ReachedEffect(r, trigger, two, at);
    AfterSame(r, trigger, one, two, at);
    SameCounters(r, trigger, one, two, at);
    PlanWithdraws(r, trigger, one, at);
    PlanWithdraws(r, trigger, two, at);
  }

  // An action not reached when it comes last: one order has it first, another has the other lines first.

  function Kept(actions: seq<FenceAction>, keep: FenceAction -> bool): (kept: seq<FenceAction>)
    ensures forall a :: a in kept <==> a in actions && keep(a)
  {
    if actions == [] then []
    else if keep(actions[0]) then [actions[0]] + Kept(actions[1..], keep)
    else Kept(actions[1..], keep)
  }

  function Not(keep: FenceAction -> bool): FenceAction -> bool { a => !keep(a) }

  /** The actions with those to keep in front. */
  function Fronted(actions: seq<FenceAction>, keep: FenceAction -> bool): seq<FenceAction> {
    Kept(actions, keep) + Kept(actions, Not(keep))
  }

  lemma {:induction false} FrontedPermutes(actions: seq<FenceAction>, keep: FenceAction -> bool)
    ensures multiset(Fronted(actions, keep)) == multiset(actions)
    decreases |actions|
  {
    if actions != [] {
      FrontedPermutes(actions[1..], keep);
      assert actions == [actions[0]] + actions[1..];
    }
  }

  lemma PermutedIsSame(one: seq<FenceAction>, two: seq<FenceAction>)
    requires multiset(one) == multiset(two)
    ensures SameActions(one, two)
  {
    forall a ensures a in one <==> a in two { assert a in one <==> a in multiset(one); }
  }

  function Is(x: FenceAction): FenceAction -> bool { a => a == x }

  /** The withdrawals that cost a line, without `x`. */
  function OtherLine(x: FenceAction): FenceAction -> bool { a => a != x && !a.ReleaseReservation? }

  lemma FirstIsReached(r: Registry, trigger: FenceTrigger, one: seq<FenceAction>, at: Time, x: FenceAction)
    requires x in one
    ensures !Bites(ApplyPlan(r, trigger, Fronted(one, Is(x)), at).reg, x)
  {
    var first := Fronted(one, Is(x));
    assert x in Kept(one, Is(x));
    assert Kept(one, Is(x))[0] in Kept(one, Is(x));
    assert first[0] == x && Lines(r, first[..0]) == {};
    ReachedIsWithdrawn(r, trigger, first, at, 0);
  }

  lemma BehindOthersIsNot(r: Registry, trigger: FenceTrigger, one: seq<FenceAction>, at: Time, x: FenceAction)
    requires x in one && Bites(r, x) && !TrailTakes(r, |Lines(r, one) - {x}|)
    ensures Bites(ApplyPlan(r, trigger, Fronted(one, OtherLine(x)), at).reg, x)
  {
    var others, last := Kept(one, OtherLine(x)), Fronted(one, OtherLine(x));
    assert Lines(r, others) == Lines(r, one) - {x};
    RunsToEnd(r, trigger, others, at);
    assert last[..|others|] == others;
    StopsForGood(r, trigger, last, at, |others|);
    UnnamedStillBites(r, trigger, others, at, x);
  }

  lemma OrderMatters(r: Registry, trigger: FenceTrigger, one: seq<FenceAction>, at: Time, x: FenceAction)
    returns (first: seq<FenceAction>, last: seq<FenceAction>)
    requires x in one && Bites(r, x) && !TrailTakes(r, |Lines(r, one) - {x}|)
    ensures multiset(first) == multiset(one) && multiset(last) == multiset(one)
    ensures !SameRecords(ApplyPlan(r, trigger, first, at).reg, ApplyPlan(r, trigger, last, at).reg)
  {
    first, last := Fronted(one, Is(x)), Fronted(one, OtherLine(x));
    FrontedPermutes(one, Is(x));
    FrontedPermutes(one, OtherLine(x));
    FirstIsReached(r, trigger, one, at, x);
    BehindOthersIsNot(r, trigger, one, at, x);
    BitesSame(ApplyPlan(r, trigger, first, at).reg, ApplyPlan(r, trigger, last, at).reg, x);
  }

  lemma BitesSame(s: Registry, t: Registry, x: FenceAction)
    ensures SameRecords(s, t) ==> (Bites(s, x) <==> Bites(t, x))
  {
    if SameRecords(s, t) {
      assert s.grants == s.(audit := []).grants == t.grants;
      assert s.contracts == s.(audit := []).contracts == t.contracts;
      assert s.reservations == s.(audit := []).reservations == t.reservations;
    }
  }

  /** Another order of the same actions leaves the same records. */
  ghost predicate OrderAgrees(
      r: Registry, trigger: FenceTrigger, one: seq<FenceAction>, two: seq<FenceAction>, at: Time)
  {
    SameRecords(ApplyPlan(r, trigger, one, at).reg, ApplyPlan(r, trigger, two, at).reg)
  }

  /** With covering counters all permutations of a plan leave the same grants, contracts, reservations and
      counters exactly when every action would be reached even as the last; and then repetitions make no
      difference either. */
  lemma OrderIrrelevant(r: Registry, trigger: FenceTrigger, one: seq<FenceAction>, at: Time)
    requires Covered(r)
    ensures OrderFree(r, one) <==>
              forall two :: multiset(two) == multiset(one) ==> OrderAgrees(r, trigger, one, two, at)
    ensures OrderFree(r, one) ==> forall two :: SameActions(one, two) ==> OrderAgrees(r, trigger, one, two, at)
  {
    if OrderFree(r, one) {
      forall two | SameActions(one, two) ensures OrderAgrees(r, trigger, one, two, at) {
        FreeIsIrrelevant(r, trigger, one, two, at);
      }
      forall two | multiset(two) == multiset(one) ensures OrderAgrees(r, trigger, one, two, at) {
        PermutedIsSame(one, two);
      }
    } else {
      var x :| x in one && Bites(r, x) && !TrailTakes(r, |Lines(r, one) - {x}|);
      var first, last := OrderMatters(r, trigger, one, at, x);
      assert !OrderAgrees(r, trigger, one, first, at) || !OrderAgrees(r, trigger, one, last, at);
    }
  }

  // ---- a full trail ----

  function FullTrail(): seq<Audit> {
    seq(MAX_AUDIT_RECORDS, i requires 0 <= i < MAX_AUDIT_RECORDS => Audit(i + 1, 0, Ok, NO_TEXT))
  }

  function SomeGrant(id: Uuid): Grant {
    Grant(id, 1, 0, 1, 1, 1, Two(Binding(1, 1, 1), Binding(2, 1, 1)), 1, 0, 10, GrantActive, Two(true, true),
          GrantNotes(Two(0, 0), 0, [], 0, Provenance(SourceUnspecified, Unverified, 0, 0, 0, 0)))
  }

  lemma StopsAfterOne(r: Registry, trigger: FenceTrigger, g: Uuid, h: Uuid, at: Time)
    requires |r.audit| >= MAX_AUDIT_RECORDS
    requires g != h && g in r.grants && h in r.grants && Fenceable(r.grants[g]) && Fenceable(r.grants[h])
    ensures var once := ApplyPlan(r, trigger, [FenceGrant(g), FenceGrant(h)], at);
            !once.ok && once.reg == r.(grants := r.grants[g := r.grants[g].(state := GrantFenced)])
  {
    var plan := [FenceGrant(g), FenceGrant(h)];
    assert plan[..1] == [FenceGrant(g)] && plan[..1][..0] == [];
    assert ApplyPlan(r, trigger, plan[..1], at) == ApplyAction(Applied(r, NO_TALLY, true), trigger, FenceGrant(g), at);
  }

  lemma GoesOnAfterOne(r: Registry, trigger: FenceTrigger, g: Uuid, h: Uuid, at: Time)
    requires g != h && g in r.grants && h in r.grants && !Fenceable(r.grants[g]) && Fenceable(r.grants[h])
    ensures ApplyPlan(r, trigger, [FenceGrant(g), FenceGrant(h)], at).reg.grants
         == r.grants[h := r.grants[h].(state := GrantFenced)]
  {
    var plan := [FenceGrant(g), FenceGrant(h)];
    assert plan[..1] == [FenceGrant(g)];
    SettledIsUnchanged(r, trigger, plan[..1], at);
    ActionParts(ApplyPlan(r, trigger, plan[..1], at), trigger, FenceGrant(h), at);
  }

  lemma NeitherFree(r: Registry, g: Uuid, h: Uuid)
    requires |r.audit| >= MAX_AUDIT_RECORDS
    requires g != h && g in r.grants && h in r.grants && Fenceable(r.grants[g]) && Fenceable(r.grants[h])
    ensures !Reaches(r, [FenceGrant(g), FenceGrant(h)]) && !OrderFree(r, [FenceGrant(g), FenceGrant(h)])
  {
    var plan := [FenceGrant(g), FenceGrant(h)];
    assert Lines(r, plan[..1]) == {FenceGrant(g)} && FirstBite(r, plan, 1);
    assert Lines(r, plan) - {plan[0]} == {FenceGrant(h)};
  }

  /** With a full trail the first application stops after one grant, and the second goes on. */
  lemma FullTrailStopsMidway()
    ensures var r := EMPTY_REGISTRY.(grants := map[1 := SomeGrant(1), 2 := SomeGrant(2)], audit := FullTrail());
            var plan := [FenceGrant(1), FenceGrant(2)];
            var once := ApplyPlan(r, Manual, plan, 0);
            && !once.ok && !Reaches(r, plan) && !OrderFree(r, plan)
            && once.reg.grants == r.grants[1 := SomeGrant(1).(state := GrantFenced)]
            && ApplyPlan(once.reg, Manual, plan, 0).reg.grants
               == once.reg.grants[2 := SomeGrant(2).(state := GrantFenced)]
  {
    var r := EMPTY_REGISTRY.(grants := map[1 := SomeGrant(1), 2 := SomeGrant(2)], audit := FullTrail());
    StopsAfterOne(r, Manual, 1, 2, 0);
    GoesOnAfterOne(ApplyPlan(r, Manual, [FenceGrant(1), FenceGrant(2)], 0).reg, Manual, 1, 2, 0);
    NeitherFree(r, 1, 2);
  }
}
