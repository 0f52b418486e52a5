/** The ledger over every run of the coordinator, whatever messages arrive. */
module LedgerRuns {
  import opened Model
  import opened Sums
  import opened Engine
  import opened Fencing
  import opened FenceEffects
  import opened FenceReach
  import opened Planning
  import opened Coordination
  import opened Frames
  import opened Agents
  import opened Evidence
  import opened Protocol
  import opened Ledger

  datatype LedgerStep =
    | Receives(conn: nat, message: Message, choices: Choices)
    | Loses(conn: nat)
    | Runs(admin: AdminStep)
    | Recovers(recovered: Registry, term: nat, incarnation: Uuid, config: Config, plan: seq<FenceAction>, now: Time)

  ghost function LedgerNext(s: Coord, step: LedgerStep, digest: Terms -> Digest): Coord {
    match step
    case Receives(conn, m, x) => Receive(s, conn, m, x)
    case Loses(conn) => HandleDisconnect(s, conn)
    case Runs(a) => Administer(s, a, digest)
    case Recovers(recovered, term, incarnation, config, plan, now) =>
      Restarted(recovered, term, incarnation, config, plan, now)
  }

  // ---- what a step must bring ----

  /** The counters a report carries agree with the ledger. */
  ghost predicate ReportMatches(r: Registry, incoming: Cluster, exact: bool) {
    forall e <- incoming.endpoints ::
      && Held(r.reservations, e) <= incoming.endpoints[e].reserved
      && (exact ==> incoming.endpoints[e].reserved == Held(r.reservations, e))
  }

  predicate OwnsAlone(r: Registry, incoming: Cluster) {
    forall c <- r.clusters, e <- incoming.endpoints :: c != incoming.id ==> e !in r.clusters[c].endpoints
  }

  /** All identities the finalisations will use are fresh, distinct and have room. */
  predicate FreshWork(r: Registry, work: seq<(Uuid, Two<Uuid>)>, exact: bool) {
    && (forall i | 0 <= i < |work| ::
          && work[i].1.first !in r.reservations && work[i].1.second !in r.reservations
          && work[i].1.first != work[i].1.second
          && (exact ==> work[i].1.first != 0 && work[i].1.second != 0))
    && (forall i, j | 0 <= i < j < |work| ::
          work[j].1.first !in {work[i].1.first, work[i].1.second}
            && work[j].1.second !in {work[i].1.first, work[i].1.second})
    && (exact ==> |r.reservations| + 2 * |work| <= MAX_RESERVATIONS)
  }

  function AssessedReg(s: Coord, conn: nat, entries: seq<StatusEntry>): Registry
    requires conn in s.sessions
  {
    s.reg.(grants := AssessAll(s.reg, s.sessions[conn], entries))
  }

  ghost predicate MessageFits(s: Coord, conn: nat, m: Message, x: Choices, exact: bool) {
    match m
    case HelloMessage(_) => GrantsLead(s.reg, x.plan)
    case ReportMessage(_, record) =>
      GrantsLead(s.reg, x.plan) && ReportMatches(s.reg, record, exact) && OwnsAlone(s.reg, record)
    case WithdrawMessage(_, _, _, _) => GrantsLead(s.reg, x.plan)
    case CommittedMessage(_, _, _, _) => FreshIds(s.reg, x.ids, exact)
    case StatusMessage(_, entries) =>
      FreshWork(s.reg, x.work, exact) && (conn in s.sessions ==> GrantsLead(AssessedReg(s, conn, entries), x.plan))
    case _ => true
  }

  predicate AdminFits(s: Coord, a: AdminStep) {
    match a
    case Expires(plan, _) => GrantsLead(s.reg, plan)
    case ChangesConsent(_, _, plan, _) => GrantsLead(s.reg, plan)
    case Resolves(_, _, plan, _) => GrantsLead(s.reg, plan)
    case SetsClusterState(_, _, plan, _) => GrantsLead(s.reg, plan)
    case Fences(_, plan, _) => GrantsLead(s.reg, plan)
    case Proposes(_, id, _) => id !in s.reg.contracts
    case _ => true
  }

  ghost predicate StepFits(s: Coord, step: LedgerStep, exact: bool) {
    match step
    case Receives(conn, m, x) => MessageFits(s, conn, m, x, exact)
    case Loses(_) => true
    case Runs(a) => AdminFits(s, a)
    case Recovers(recovered, _, _, _, plan, now) =>
      && !exact && UniqueOwners(recovered) && (forall g <- recovered.grants :: recovered.grants[g].id == g)
      && (forall c, e :: Declares(recovered, c, e) ==>
          Counter(recovered, c, e) <= recovered.clusters[c].endpoints[e].capacity)
      && IsRecoveryPlan(recovered, plan) && HasTrailRoom(recovered, plan)
  }

  // ---- fences after a change of one cluster ----

  lemma ClusterChangeIsQuiet(r: Registry, id: Name, c: Cluster)
    requires c.endpoints == if id in r.clusters then r.clusters[id].endpoints else map[]
    ensures Quiet(r, WithCluster(r, id, c))
  {
  }

  lemma FenceClusterKeepsLedger(r: Registry, trigger: FenceTrigger, plan: seq<FenceAction>, now: Time, exact: bool)
    requires LedgerOk(r, exact) && GrantsLead(r, plan)
    ensures LedgerOk(FenceCluster(r, trigger, plan, now).reg, exact)
  {
    PlanKeepsLedger(r, trigger, plan, now, exact);
    FenceClusterParts(r, trigger, plan, now);
    var s := ApplyPlan(r, trigger, plan, now).reg;
    LinesAreQuiet(s, FenceCluster(r, trigger, plan, now).reg.audit);
    QuietKeepsLedger(s, FenceCluster(r, trigger, plan, now).reg, exact);
  }

  lemma LinesAreQuiet(r: Registry, audit: seq<Audit>)
    ensures Quiet(r, r.(audit := audit))
  {
  }

  /** The plan was made for the registry before or after the change: the change touches no grant. */
  lemma ChangeThenFenceLedger(
      r: Registry, id: Name, c: Cluster, trigger: FenceTrigger, plan: seq<FenceAction>, now: Time, exact: bool)
    requires LedgerOk(r, exact) && GrantsLead(r, plan)
    requires c.endpoints == if id in r.clusters then r.clusters[id].endpoints else map[]
    ensures LedgerOk(WithCluster(r, id, c), exact)
    ensures LedgerOk(FenceCluster(WithCluster(r, id, c), trigger, plan, now).reg, exact)
  {
    var changed := WithCluster(r, id, c);
    ClusterChangeIsQuiet(r, id, c);
    QuietKeepsLedger(r, changed, exact);
    assert GrantsLead(changed, plan);
    FenceClusterKeepsLedger(changed, trigger, plan, now, exact);
  }

  lemma HelloKeepsLedger(s: Coord, conn: nat, h: Hello, token: Uuid, plan: seq<FenceAction>, now: Time, exact: bool)
    requires LedgerOk(s.reg, exact) && GrantsLead(s.reg, plan)
    ensures LedgerOk(OnHello(s, conn, h, token, plan, now).reg, exact)
  {
    if h.cluster !in s.reg.clusters {
      ChangeThenFenceLedger(s.reg, h.cluster, Registered(h), Manual, plan, now, exact);
    } else {
      var c := s.reg.clusters[h.cluster];
      ChangeThenFenceLedger(s.reg, h.cluster, Reincarnation(c, h), ClusterReincarnation, plan, now, exact);
      ChangeThenFenceLedger(s.reg, h.cluster, c.(policyGeneration := h.policyGeneration), PolicyGenerationChange, plan,
                            now, exact);
    }
  }

  lemma WithdrawKeepsLedger(
      s: Coord, conn: nat, token: Uuid, cluster: Name, incarnation: Uuid, generation: nat, plan: seq<FenceAction>,
      now: Time, exact: bool)
    requires LedgerOk(s.reg, exact) && GrantsLead(s.reg, plan)
    ensures LedgerOk(OnWithdraw(s, conn, token, cluster, incarnation, generation, plan, now).reg, exact)
  {
    if cluster in s.reg.clusters {
      ChangeThenFenceLedger(s.reg, cluster, s.reg.clusters[cluster].(consentWithdrawn := true), ClusterWithdrawal,
                            plan, now, exact);
    }
  }

  lemma ConsentChangeKeepsLedger(
      s: Coord, cluster: Name, withdraw: bool, plan: seq<FenceAction>, now: Time, exact: bool)
    requires LedgerOk(s.reg, exact) && GrantsLead(s.reg, plan)
    ensures LedgerOk(ConsentChange(s, cluster, withdraw, plan, now).reg, exact)
  {
    if cluster in s.reg.clusters {
      ChangeThenFenceLedger(s.reg, cluster, s.reg.clusters[cluster].(consentWithdrawn := withdraw), ClusterWithdrawal,
                            plan, now, exact);
    }
  }

  lemma ResolveKeepsLedger(s: Coord, cluster: Name, generation: nat, plan: seq<FenceAction>, now: Time, exact: bool)
    requires LedgerOk(s.reg, exact) && GrantsLead(s.reg, plan)
    ensures LedgerOk(ResolveConflict(s, cluster, generation, plan, now).reg, exact)
  {
    if cluster in s.reg.clusters {
      var c := s.reg.clusters[cluster].(generationConflict := false, generation := generation);
      ChangeThenFenceLedger(s.reg, cluster, c, Manual, plan, now, exact);
    }
  }

  lemma SetStateKeepsLedger(
      s: Coord, cluster: Name, state: ClusterState, plan: seq<FenceAction>, now: Time, exact: bool)
    requires LedgerOk(s.reg, exact) && GrantsLead(s.reg, plan)
    ensures LedgerOk(SetClusterState(s, cluster, state, plan, now).reg, exact)
  {
    if cluster in s.reg.clusters {
      ChangeThenFenceLedger(s.reg, cluster, s.reg.clusters[cluster].(state := state), Manual, plan, now, exact);
    }
  }

  // ---- reports replace the counters ----

  lemma ReplaceUnique(r: Registry, c: Cluster)
    requires UniqueOwners(r) && OwnsAlone(r, c)
    ensures UniqueOwners(WithCluster(r, c.id, c))
  {
  }

  /** A report that is accepted keeps the counters in order exactly when those it carries match the
      ledger; in particular a record with all counters at zero does exactly when none of its endpoints
      has an unreleased reservation. */
  lemma ReportReplacesCounters(r: Registry, c: Cluster, exact: bool)
    requires CountersOk(r, exact) && PutCluster(r, c).Success?
    ensures PutCluster(r, c) == Success(WithCluster(r, c.id, c))
    ensures CountersOk(WithCluster(r, c.id, c), exact) <==> ReportMatches(r, c, exact)
  {
    var s := WithCluster(r, c.id, c);
    if ReportMatches(r, c, exact) {
      forall d, e | Declares(s, d, e) ensures CounterOk(s, d, e, exact) {
        if d != c.id { assert Declares(r, d, e) && CounterOk(r, d, e, exact); }
      }
    }
    if CountersOk(s, exact) {
      forall e | e in c.endpoints
        ensures Held(r.reservations, e) <= c.endpoints[e].reserved
        ensures exact ==> c.endpoints[e].reserved == Held(r.reservations, e)
      {
        assert Declares(s, c.id, e) && CounterOk(s, c.id, e, exact);
      }
    }
  }

  lemma AcceptedKeepsLedger(
      r: Registry, c: Cluster, trigger: FenceTrigger, plan: seq<FenceAction>, now: Time, exact: bool)
    requires LedgerOk(r, exact) && GrantsLead(r, plan) && PutCluster(r, c).Success? && ReportMatches(r, c, exact)
    requires OwnsAlone(r, c)
    ensures var s := WithCluster(r, c.id, c);
            LedgerOk(s, exact) && LedgerOk(FenceCluster(s, trigger, plan, now).reg, exact)
  {
    var s := WithCluster(r, c.id, c);
    ReplaceUnique(r, c);
    ReportReplacesCounters(r, c, exact);
    assert Supported(s) by {
      forall g | g in s.grants ensures s.grants[g].id == g && GrantSupported(s, g) {
        assert r.grants[g].id == g && GrantSupported(r, g);
      }
    }
    assert GrantsLead(s, plan);
    FenceClusterKeepsLedger(s, trigger, plan, now, exact);
  }

  lemma ReportKeepsLedger(
      s: Coord, conn: nat, token: Uuid, incoming: Cluster, plan: seq<FenceAction>, now: Time, exact: bool)
    requires LedgerOk(s.reg, exact) && GrantsLead(s.reg, plan) && ReportMatches(s.reg, incoming, exact)
    requires OwnsAlone(s.reg, incoming)
    ensures LedgerOk(OnReport(s, conn, token, incoming, plan, now).reg, exact)
  {
    if incoming.id in s.reg.clusters {
      var c := s.reg.clusters[incoming.id];
      ChangeThenFenceLedger(s.reg, incoming.id, c.(generationConflict := true), Manual, plan, now, exact);
      var accepted := Accepted(c, incoming);
      assert accepted.endpoints == incoming.endpoints && accepted.id == incoming.id;
      if PutCluster(s.reg, accepted).Success? {
        ReportReplacesCounters(s.reg, accepted, exact);
        AcceptedKeepsLedger(s.reg, accepted, PolicyGenerationChange, plan, now, exact);
      }
    }
  }

  // ---- the grant flow ----

  lemma DisconnectIsQuiet(s: Coord, conn: nat)
    ensures Quiet(s.reg, HandleDisconnect(s, conn).reg)
  {
  }

  lemma ConsentIsQuiet(s: Coord, conn: nat, token: Uuid, n: ConsentNotice, now: Time)
    ensures Quiet(s.reg, OnConsent(s, conn, token, n, now).reg)
  {
  }

  lemma StateIsQuiet(r: Registry, g: Uuid, state: GrantState)
    requires g in r.grants && state != Committed && state != GrantActive
    ensures Quiet(r, r) && Quiet(r, WithGrant(r, g, r.grants[g].(state := state)))
  {
  }

  lemma PreparedIsQuiet(s: Coord, conn: nat, token: Uuid, g: Uuid, attempt: Uuid, accepted: bool)
    ensures Quiet(s.reg, OnPrepared(s, conn, token, g, attempt, accepted).reg)
  {
    AbortIsQuiet(s, g);
    if g in s.reg.grants {
      StateIsQuiet(s.reg, g, GrantIndeterminate);
      StateIsQuiet(s.reg, g, Prepared);
    }
  }

  lemma AcknowledgeIsQuiet(r: Registry, g: Uuid, side: Side)
    requires g in r.grants
    ensures Quiet(r, WithGrant(r, g, Acknowledge(r.grants[g], side)))
  {
  }

  lemma CommittedKeepsLedger(
      s: Coord, conn: nat, token: Uuid, g: Uuid, attempt: Uuid, installed: bool, ids: Two<Uuid>, now: Time, exact: bool)
    requires LedgerOk(s.reg, exact) && FreshIds(s.reg, ids, exact)
    ensures LedgerOk(OnCommitted(s, conn, token, g, attempt, installed, ids, now).reg, exact)
  {
    AbortIsQuiet(s, g);
    QuietKeepsLedger(s.reg, Abort(s, g).reg, exact);
    if ReplySide(s, conn, token, g, attempt).Some? && installed {
      var side := ReplySide(s, conn, token, g, attempt).value;
      var s' := s.(reg := WithGrant(s.reg, g, Acknowledge(s.reg.grants[g], side)));
      AcknowledgeIsQuiet(s.reg, g, side);
      QuietKeepsLedger(s.reg, s'.reg, exact);
      FinaliseKeepsLedger(s', g, ids, now, exact);
    }
  }

  lemma ReserveGrows(r: Registry, g: Grant, ids: Two<Uuid>, now: Time)
    ensures Reserve(r, g, ids, now).reg.reservations.Keys <= r.reservations.Keys + {ids.first, ids.second}
    ensures |Reserve(r, g, ids, now).reg.reservations| <= |r.reservations| + 2
  {
    if g.contract in r.contracts {
      var parties := r.contracts[g.contract].parties;
      var one := ReserveSide(r, g.id, g.capacity, parties.first, ids.first, now);
      ReserveSideGrows(r, g.id, g.capacity, parties.first, ids.first, now);
      AtMostOneMore(r.reservations.Keys, one.reg.reservations.Keys, ids.first);
      if one.ok {
        ReserveSideGrows(one.reg, g.id, g.capacity, parties.second, ids.second, now);
        var two := ReserveSide(one.reg, g.id, g.capacity, parties.second, ids.second, now);
        AtMostOneMore(one.reg.reservations.Keys, two.reg.reservations.Keys, ids.second);
      }
    }
  }

  lemma FinaliseReservations(s: Coord, g: Uuid, ids: Two<Uuid>, now: Time)
    ensures var t := Finalise(s, g, ids, now).coord.reg.reservations;
            t == s.reg.reservations
              || (g in s.reg.grants && t == Reserve(s.reg, s.reg.grants[g], ids, now).reg.reservations)
  {
  }

  lemma FinaliseGrows(s: Coord, g: Uuid, ids: Two<Uuid>, now: Time)
    ensures var t := Finalise(s, g, ids, now).coord.reg.reservations;
            t.Keys <= s.reg.reservations.Keys + {ids.first, ids.second} && |t| <= |s.reg.reservations| + 2
  {
    FinaliseReservations(s, g, ids, now);
    if g in s.reg.grants { ReserveGrows(s.reg, s.reg.grants[g], ids, now); }
  }

  lemma FreshRest(r: Registry, t: Registry, work: seq<(Uuid, Two<Uuid>)>, exact: bool)
    requires work != [] && FreshWork(r, work, exact)
    requires t.reservations.Keys <= r.reservations.Keys + {work[0].1.first, work[0].1.second}
    requires |t.reservations| <= |r.reservations| + 2
    ensures FreshWork(t, work[1..], exact) && FreshIds(r, work[0].1, exact)
  {
    var rest := work[1..];
    assert forall i | 0 <= i < |rest| :: rest[i] == work[i + 1];
  }

  lemma {:induction false} FinaliseAllKeepsLedger(s: Coord, work: seq<(Uuid, Two<Uuid>)>, now: Time, exact: bool)
    requires LedgerOk(s.reg, exact) && FreshWork(s.reg, work, exact)
    ensures LedgerOk(FinaliseAll(s, work, now).reg, exact)
    decreases |work|
  {
    if work != [] {
      FreshRest(s.reg, s.reg, work, exact);
      FinaliseAllKeepsLedger(s, work[1..], now, exact);
      var next := Finalise(s, work[0].0, work[0].1, now).coord;
      FinaliseGrows(s, work[0].0, work[0].1, now);
      FreshRest(s.reg, next.reg, work, exact);
      FinaliseKeepsLedger(s, work[0].0, work[0].1, now, exact);
      FinaliseAllKeepsLedger(next, work[1..], now, exact);
    }
  }

  lemma AssessIsQuiet(r: Registry, session: Session, entries: seq<StatusEntry>)
    ensures Quiet(r, r.(grants := AssessAll(r, session, entries)))
  {
  }

  lemma PlanKeepsWorkFresh(
      r: Registry, trigger: FenceTrigger, plan: seq<FenceAction>, now: Time, work: seq<(Uuid, Two<Uuid>)>,
      exact: bool)
    requires FreshWork(r, work, exact)
    ensures FreshWork(ApplyPlan(r, trigger, plan, now).reg, work, exact)
  {
    PlanWithdraws(r, trigger, plan, now);
    var s := ApplyPlan(r, trigger, plan, now).reg;
    assert s.reservations.Keys == r.reservations.Keys;
    assert |s.reservations| == |s.reservations.Keys| && |r.reservations| == |r.reservations.Keys|;
  }

  lemma StatusKeepsLedger(
      s: Coord, conn: nat, token: Uuid, entries: seq<StatusEntry>, plan: seq<FenceAction>, work: seq<(Uuid,
      Two<Uuid>)>, now: Time, exact: bool)
    requires LedgerOk(s.reg, exact) && FreshWork(s.reg, work, exact)
    requires conn in s.sessions ==> GrantsLead(AssessedReg(s, conn, entries), plan)
    ensures LedgerOk(OnStatusReport(s, conn, token, entries, plan, work, now).reg, exact)
  {
    if Authentic(s, conn, token) {
      var assessed := AssessedReg(s, conn, entries);
      AssessIsQuiet(s.reg, s.sessions[conn], entries);
      QuietKeepsLedger(s.reg, assessed, exact);
      PlanKeepsLedger(assessed, GrantRevocation, plan, now, exact);
      PlanKeepsWorkFresh(assessed, GrantRevocation, plan, now, work, exact);
      FinaliseAllKeepsLedger(s.(reg := ApplyPlan(assessed, GrantRevocation, plan, now).reg), work, now, exact);
    }
  }

  lemma ExpireKeepsLedger(s: Coord, plan: seq<FenceAction>, now: Time, exact: bool)
    requires LedgerOk(s.reg, exact) && GrantsLead(s.reg, plan)
    ensures LedgerOk(ExpireGrants(s, plan, now).reg, exact)
  {
    var fenced := ApplyPlan(s.reg, GrantExpiry, plan, now).reg;
    PlanKeepsLedger(s.reg, GrantExpiry, plan, now, exact);
    var marked := fenced.(grants := MarkExpired(fenced.grants, Expiring(s.reg, now)));
    assert Quiet(fenced, marked);
    QuietKeepsLedger(fenced, marked, exact);
  }

  lemma RetryIsQuiet(s: Coord, now: Time)
    ensures Quiet(s.reg, RetryPending(s, now).reg)
  {
  }

  lemma NewRecordsAreQuiet(s: Coord, a: AdminStep, digest: Terms -> Digest)
    requires a.Proposes? || a.Issues? || a.Revalidates?
    requires a.Proposes? ==> a.id !in s.reg.contracts
    requires Supported(s.reg)
    ensures Quiet(s.reg, Administer(s, a, digest).reg)
  {
    match a
    case Proposes(p, id, now) => ProposeIsQuiet(s, p, id, digest, now);
    case Issues(c, capacity, id, attempt, now) => IssueRecords(s, c, capacity, id, attempt, now);
    case Revalidates(g, attempt, now) => RevalidateRecords(s, g, attempt, now);
  }

  lemma ProposeIsQuiet(s: Coord, p: Proposal, id: Uuid, digest: Terms -> Digest, now: Time)
    requires id !in s.reg.contracts
    ensures Quiet(s.reg, Propose(s, p, id, digest, now).reg)
  {
    ProposeRecords(s, p, id, digest, now);
    ContractIsQuiet(s.reg, Propose(s, p, id, digest, now).reg.contracts);
  }

  lemma ContractIsQuiet(r: Registry, contracts: map<Uuid, Contract>)
    requires PartiesKept(r.contracts, contracts)
    ensures Quiet(r, r.(contracts := contracts))
  {
  }

  // ---- restart ----

  lemma RecoveredLedger(recovered: Registry, plan: seq<FenceAction>, now: Time)
    requires UniqueOwners(recovered) && (forall g <- recovered.grants :: recovered.grants[g].id == g)
    requires forall c, e :: Declares(recovered, c, e) ==>
             Counter(recovered, c, e) <= recovered.clusters[c].endpoints[e].capacity
    requires IsRecoveryPlan(recovered, plan) && HasTrailRoom(recovered, plan)
    ensures LedgerOk(ApplyPlan(recovered, CoordinatorReincarnation, plan, now).reg, false)
  {
    var s := ApplyPlan(recovered, CoordinatorReincarnation, plan, now).reg;
    PlanWithdraws(recovered, CoordinatorReincarnation, plan, now);
    WithdrawnKeepsShape(recovered, s);
    RecoveryFencesAll(recovered, plan, now);
    forall g | g in s.grants ensures s.grants[g].id == g && GrantSupported(s, g) {
      assert GrantWithdrawnOnly(recovered.grants[g], s.grants[g]) && !s.grants[g].Live();
    }
    forall c, e | Declares(s, c, e) ensures CounterOk(s, c, e, false) {
      LoweredDeclares(recovered, s, c, e);
      SumZero(s.reservations, HeldFor(e));
      assert ClusterLowered(recovered.clusters[c], s.clusters[c]);
      assert EndpointLowered(recovered.clusters[c].endpoints[e], s.clusters[c].endpoints[e]);
    }
  }

  // ---- every run ----

  lemma ReceiveKeepsLedger(s: Coord, conn: nat, m: Message, x: Choices, exact: bool)
    requires LedgerOk(s.reg, exact) && MessageFits(s, conn, m, x, exact)
    ensures LedgerOk(Receive(s, conn, m, x).reg, exact)
  {
    match m
    case HelloMessage(h) => HelloKeepsLedger(s, conn, h, x.token, x.plan, x.now, exact);
    case ReportMessage(token, record) => ReportKeepsLedger(s, conn, token, record, x.plan, x.now, exact);
    case ConsentMessage(token, n) =>
      ConsentIsQuiet(s, conn, token, n, x.now);
      QuietKeepsLedger(s.reg, Receive(s, conn, m, x).reg, exact);
    case PreparedMessage(token, g, attempt, accepted) =>
      PreparedIsQuiet(s, conn, token, g, attempt, accepted);
      QuietKeepsLedger(s.reg, Receive(s, conn, m, x).reg, exact);
    case CommittedMessage(token, g, attempt, installed) =>
      CommittedKeepsLedger(s, conn, token, g, attempt, installed, x.ids, x.now, exact);
    case AbortedMessage(token, g) =>
      AbortIsQuiet(s, g);
      QuietKeepsLedger(s.reg, Abort(s, g).reg, exact);
    case WithdrawMessage(token, c, incarnation, generation) =>
      WithdrawKeepsLedger(s, conn, token, c, incarnation, generation, x.plan, x.now, exact);
    case StatusMessage(token, entries) => StatusKeepsLedger(s, conn, token, entries, x.plan, x.work, x.now, exact);
  }

  lemma AdministerKeepsLedger(s: Coord, a: AdminStep, digest: Terms -> Digest, exact: bool)
    requires LedgerOk(s.reg, exact) && AdminFits(s, a)
    ensures LedgerOk(Administer(s, a, digest).reg, exact)
  {
    match a
    case Expires(plan, now) => ExpireKeepsLedger(s, plan, now, exact);
    case Retries(now) =>
      RetryIsQuiet(s, now);
      QuietKeepsLedger(s.reg, RetryPending(s, now).reg, exact);
    case ChangesConsent(c, withdraw, plan, now) => ConsentChangeKeepsLedger(s, c, withdraw, plan, now, exact);
    case Resolves(c, generation, plan, now) => ResolveKeepsLedger(s, c, generation, plan, now, exact);
    case SetsClusterState(c, state, plan, now) => SetStateKeepsLedger(s, c, state, plan, now, exact);
    case Fences(trigger, plan, now) => PlanKeepsLedger(s.reg, trigger, plan, now, exact);
    case EditsTopology(links, paths, policies) =>
      assert Quiet(s.reg, EditTopology(s, links, paths, policies).reg);
      QuietKeepsLedger(s.reg, EditTopology(s, links, paths, policies).reg, exact);
    case _ =>
      NewRecordsAreQuiet(s, a, digest);
      QuietKeepsLedger(s.reg, Administer(s, a, digest).reg, exact);
  }

  lemma StepKeepsLedger(s: Coord, step: LedgerStep, digest: Terms -> Digest, exact: bool)
    requires LedgerOk(s.reg, exact) && StepFits(s, step, exact)
    ensures LedgerOk(LedgerNext(s, step, digest).reg, exact)
  {
    match step
    case Receives(conn, m, x) => ReceiveKeepsLedger(s, conn, m, x, exact);
    case Loses(conn) =>
      DisconnectIsQuiet(s, conn);
      QuietKeepsLedger(s.reg, HandleDisconnect(s, conn).reg, exact);
    case Runs(a) => AdministerKeepsLedger(s, a, digest, exact);
    case Recovers(recovered, _, _, _, plan, now) => RecoveredLedger(recovered, plan, now);
  }

  ghost predicate IsLedgerRun(states: seq<Coord>, steps: seq<LedgerStep>, digest: Terms -> Digest, exact: bool) {
    && |states| == |steps| + 1 && states[0].reg == EMPTY_REGISTRY
    && forall i {:trigger steps[i]} | 0 <= i < |steps| ::
         StepFits(states[i], steps[i], exact) && states[i + 1] == LedgerNext(states[i], steps[i], digest)
  }

  lemma RunStep(states: seq<Coord>, steps: seq<LedgerStep>, digest: Terms -> Digest, exact: bool, i: nat)
    requires IsLedgerRun(states, steps, digest, exact) && i < |steps| && LedgerOk(states[i].reg, exact)
    ensures LedgerOk(states[i + 1].reg, exact)
  {
    StepKeepsLedger(states[i], steps[i], digest, exact);
  }

  lemma {:induction false} LedgerAlways(
      states: seq<Coord>, steps: seq<LedgerStep>, digest: Terms -> Digest, exact: bool, i: nat)
    requires IsLedgerRun(states, steps, digest, exact) && i < |states|
    ensures LedgerOk(states[i].reg, exact)
    decreases i
  {
    if i > 0 {
      LedgerAlways(states, steps, digest, exact, i - 1);
      RunStep(states, steps, digest, exact, i - 1);
    }
  }

  /** No over-commit in any ledger run, restarts included. */
  lemma NeverOvercommitted(
      states: seq<Coord>, steps: seq<LedgerStep>, digest: Terms -> Digest, i: nat, c: Name, e: Name)
    requires IsLedgerRun(states, steps, digest, false) && i < |states| && Declares(states[i].reg, c, e)
    ensures var r := states[i].reg;
            UsableCapacity(r, e) <= Held(r.reservations, e) <= Counter(r, c, e) <= r.clusters[c].endpoints[e].capacity
  {
    LedgerAlways(states, steps, digest, false, i);
    NoOvercommit(states[i].reg, false, c, e);
  }

  /** In a run without restarts every counter is the sum of the unreleased reservations. */
  lemma CapacityConserved(states: seq<Coord>, steps: seq<LedgerStep>, digest: Terms -> Digest, i: nat, c: Name, e: Name)
    requires IsLedgerRun(states, steps, digest, true) && i < |states| && Declares(states[i].reg, c, e)
    ensures Counter(states[i].reg, c, e) == Held(states[i].reg.reservations, e)
  {
    LedgerAlways(states, steps, digest, true, i);
    assert CounterOk(states[i].reg, c, e, true);
  }

  // ---- why the conditions are there ----

  /** Every other cluster that declares the endpoint already counts what is to be reserved. */
  ghost predicate OthersCover(r: Registry, party: Party, amount: nat) {
    forall c :: c != party.cluster && Declares(r, c, party.endpoint) ==>
      Held(r.reservations, party.endpoint) + amount <= Counter(r, c, party.endpoint)
  }

  lemma RaisedCounter(r: Registry, grant: Uuid, amount: nat, party: Party, id: Uuid, now: Time, c: Name, e: Name)
    requires CanReserve(r, party, amount)
    ensures var s := ReserveSide(r, grant, amount, party, id, now).reg;
            && (Declares(s, c, e) <==> Declares(r, c, e))
            && (Declares(r, c, e) ==>
                  Counter(s, c, e) == Counter(r, c, e) + if c == party.cluster && e == party.endpoint then amount
                    else 0)
  {
  }

  /** A reservation is booked with one cluster: it leaves every counter covering the ledger exactly when it is
      refused, or every other cluster that declares the endpoint counted its amount already. */
  lemma ReservationCovers(r: Registry, grant: Uuid, amount: nat, party: Party, id: Uuid, now: Time)
    requires Covered(r) && id !in r.reservations
    ensures var s := ReserveSide(r, grant, amount, party, id, now);
            Covered(s.reg) <==> (s.ok ==> OthersCover(r, party, amount))
  {
    if CanReserve(r, party, amount) {
      var s := ReserveSide(r, grant, amount, party, id, now);
      forall c, e
        ensures Declares(s.reg, c, e) <==> Declares(r, c, e)
        ensures Declares(r, c, e) ==>
                Counter(s.reg, c, e) == Counter(r, c, e) + if c == party.cluster && e == party.endpoint then amount
                  else 0
        ensures Held(s.reg.reservations, e) == Held(r.reservations, e) + if s.ok && e == party.endpoint then amount
                else 0
      {
        RaisedCounter(r, grant, amount, party, id, now, c, e);
        RaisedHeld(r, grant, amount, party, id, now, e);
      }
      if Covered(s.reg) && s.ok {
        forall c | c != party.cluster && Declares(r, c, party.endpoint)
          ensures Held(r.reservations, party.endpoint) + amount <= Counter(r, c, party.endpoint)
        {
          assert Declares(s.reg, c, party.endpoint);
        }
      }
    }
  }

  function Declarer(id: Name): Cluster {
    Cluster(id, [3], 7, 1, 1, ClusterActive, false,
            map[[5] := Endpoint([5], id, 10, 0, 1, EndpointActive, true, false, EndpointNotes([], NO_PROVENANCE))],
            0, false, ClusterNotes(0, None, 0, NO_PROVENANCE, 0))
  }

  /** Two clusters declare endpoint [5]; a reservation with the first leaves the second's counter short. */
  lemma SharedEndpointUncovered()
    ensures var r := EMPTY_REGISTRY.(clusters := map[[1] := Declarer([1]), [2] := Declarer([2])]);
            var s := ReserveSide(r, 21, 1, Party([1], [5], [3]), 31, 0);
            Covered(r) && s.ok && !Covered(s.reg)
  {
    var first: Name, second: Name, shared: Name := [1], [2], [5];
    assert first[0] != second[0];
    var r := EMPTY_REGISTRY.(clusters := map[first := Declarer(first), second := Declarer(second)]);
    var party := Party(first, shared, [3]);
    forall e ensures Held(r.reservations, e) == 0 { SumZero(r.reservations, HeldFor(e)); }
    assert Declares(r, second, shared) && Counter(r, second, shared) == 0;
    ReservationCovers(r, 21, 1, party, 31, 0);
  }
}
