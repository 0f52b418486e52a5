/** The reported release of capacity over runs of the coordinator: it is the decrease of the counters at every
    fence, as long as reports keep the endpoints that still hold a reservation. */
module LedgerTally {
  import opened Model
  import opened Sums
  import opened Fencing
  import opened FenceEffects
  import opened FenceReach
  import opened FenceTally
  import opened Planning
  import opened Coordination
  import opened Agents
  import opened Protocol
  import opened Ledger
  import opened LedgerRuns

  /** An unreleased reservation against an endpoint of the cluster. */
  predicate HeldBy(v: Reservation, c: Cluster) {
    !v.released && v.endpoint in c.endpoints
  }

  /** No endpoint of the cluster with an unreleased reservation is missing from the report. */
  predicate KeepsHeld(r: Registry, incoming: Cluster) {
    incoming.id in r.clusters ==>
      forall k <- r.reservations ::
        HeldBy(r.reservations[k], r.clusters[incoming.id]) ==> r.reservations[k].endpoint in incoming.endpoints
  }

  predicate StepKeepsHeld(s: Coord, step: LedgerStep) {
    step.Receives? && step.message.ReportMessage? ==> KeepsHeld(s.reg, step.message.record)
  }

  // ---- reservations stay on declared endpoints ----

  predicate IsDeclared(r: Registry, e: Name) {
    exists c <- r.clusters :: e in r.clusters[c].endpoints
  }

  lemma QuietKeepsDeclared(r: Registry, s: Registry)
    requires LedgerDeclared(r) && Quiet(r, s)
    ensures LedgerDeclared(s)
  {
    forall k | k in s.reservations && !s.reservations[k].released ensures IsDeclared(s, s.reservations[k].endpoint) {
      var c :| c in r.clusters && r.reservations[k].endpoint in r.clusters[c].endpoints;
      assert c in s.clusters && s.clusters[c].endpoints == r.clusters[c].endpoints;
    }
  }

  lemma FencedStaysDeclared(r: Registry, trigger: FenceTrigger, plan: seq<FenceAction>, now: Time)
    requires LedgerDeclared(r)
    ensures LedgerDeclared(ApplyPlan(r, trigger, plan, now).reg)
    ensures LedgerDeclared(FenceCluster(r, trigger, plan, now).reg)
  {
    PlanWithdraws(r, trigger, plan, now);
    WithdrawnKeepsShape(r, ApplyPlan(r, trigger, plan, now).reg);
    FenceClusterParts(r, trigger, plan, now);
  }

  lemma ChangedStaysDeclared(
      r: Registry, id: Name, c: Cluster, trigger: FenceTrigger, plan: seq<FenceAction>, now: Time)
    requires LedgerDeclared(r) && c.endpoints == if id in r.clusters then r.clusters[id].endpoints else map[]
    ensures LedgerDeclared(WithCluster(r, id, c))
    ensures LedgerDeclared(FenceCluster(WithCluster(r, id, c), trigger, plan, now).reg)
  {
    ClusterChangeIsQuiet(r, id, c);
    QuietKeepsDeclared(r, WithCluster(r, id, c));
    FencedStaysDeclared(WithCluster(r, id, c), trigger, plan, now);
  }

  lemma ReportStaysDeclared(r: Registry, c: Cluster)
    requires LedgerDeclared(r) && KeepsHeld(r, c) && c.id in r.clusters
    ensures LedgerDeclared(WithCluster(r, c.id, c))
  {
    var s := WithCluster(r, c.id, c);
    forall k | k in s.reservations && !s.reservations[k].released ensures IsDeclared(s, s.reservations[k].endpoint) {
      var e := r.reservations[k].endpoint;
      var o :| o in r.clusters && e in r.clusters[o].endpoints;
      assert o == c.id ==> HeldBy(r.reservations[k], r.clusters[c.id]);
      assert o in s.clusters && e in s.clusters[o].endpoints;
    }
  }

  lemma RaisedDeclares(clusters: map<Name, Cluster>, id: Name, e: Name, amount: nat, c: Name)
    requires id in clusters && e in clusters[id].endpoints && c in clusters
    ensures clusters[id := Raised(clusters[id], e, amount)][c].endpoints.Keys == clusters[c].endpoints.Keys
  {
  }

  lemma SideStaysDeclared(r: Registry, grant: Uuid, amount: nat, party: Party, id: Uuid, now: Time)
    requires LedgerDeclared(r)
    ensures LedgerDeclared(ReserveSide(r, grant, amount, party, id, now).reg)
  {
    if CanReserve(r, party, amount) {
      var s := ReserveSide(r, grant, amount, party, id, now).reg;
      forall c | c in r.clusters
        ensures c in s.clusters && s.clusters[c].endpoints.Keys == r.clusters[c].endpoints.Keys {
        RaisedDeclares(r.clusters, party.cluster, party.endpoint, amount, c);
      }
      forall k | k in s.reservations && !s.reservations[k].released ensures IsDeclared(s, s.reservations[k].endpoint) {
        if k in r.reservations && s.reservations[k] == r.reservations[k] {
          var c :| c in r.clusters && r.reservations[k].endpoint in r.clusters[c].endpoints;
          assert r.reservations[k].endpoint in s.clusters[c].endpoints;
        } else {
          assert party.endpoint in s.clusters[party.cluster].endpoints;
        }
      }
    }
  }

  lemma ReserveStaysDeclared(r: Registry, g: Grant, ids: Two<Uuid>, now: Time)
    requires LedgerDeclared(r)
    ensures LedgerDeclared(Reserve(r, g, ids, now).reg)
  {
    if g.contract in r.contracts {
      var p := r.contracts[g.contract].parties;
      SideStaysDeclared(r, g.id, g.capacity, p.first, ids.first, now);
      SideStaysDeclared(ReserveSide(r, g.id, g.capacity, p.first, ids.first, now).reg, g.id, g.capacity, p.second,
                        ids.second, now);
    }
  }

  lemma GrantStaysDeclared(r: Registry, id: Uuid, g: Grant)
    requires LedgerDeclared(r)
    ensures LedgerDeclared(WithGrant(r, id, g))
  {
  }

  lemma FinaliseStaysDeclared(s: Coord, g: Uuid, ids: Two<Uuid>, now: Time)
    requires LedgerDeclared(s.reg)
    ensures LedgerDeclared(Finalise(s, g, ids, now).coord.reg)
  {
    FinaliseShape(s, g, ids, now);
    if Finalise(s, g, ids, now).coord.reg != s.reg {
      var reserved := Reserve(s.reg, s.reg.grants[g], ids, now).reg;
      ReserveStaysDeclared(s.reg, s.reg.grants[g], ids, now);
      AbortIsQuiet(s.(reg := reserved), g);
      QuietKeepsDeclared(reserved, Abort(s.(reg := reserved), g).reg);
      GrantStaysDeclared(reserved, g, s.reg.grants[g].(state := Committed));
    }
  }

  lemma {:induction false} FinaliseAllStaysDeclared(s: Coord, work: seq<(Uuid, Two<Uuid>)>, now: Time)
    requires LedgerDeclared(s.reg)
    ensures LedgerDeclared(FinaliseAll(s, work, now).reg)
    decreases |work|
  {
    if work != [] {
      FinaliseAllStaysDeclared(s, work[1..], now);
      FinaliseStaysDeclared(s, work[0].0, work[0].1, now);
      FinaliseAllStaysDeclared(Finalise(s, work[0].0, work[0].1, now).coord, work[1..], now);
    }
  }

  // ---- every message ----

  lemma HelloStaysDeclared(s: Coord, conn: nat, h: Hello, token: Uuid, plan: seq<FenceAction>, now: Time)
    requires LedgerDeclared(s.reg)
    ensures LedgerDeclared(OnHello(s, conn, h, token, plan, now).reg)
  {
    if h.cluster !in s.reg.clusters {
      ChangedStaysDeclared(s.reg, h.cluster, Registered(h), Manual, plan, now);
    } else {
      var c := s.reg.clusters[h.cluster];
      ChangedStaysDeclared(s.reg, h.cluster, Reincarnation(c, h), ClusterReincarnation, plan, now);
      ChangedStaysDeclared(s.reg, h.cluster, c.(policyGeneration := h.policyGeneration), PolicyGenerationChange, plan,
                           now);
    }
  }

  lemma AcceptedStaysDeclared(r: Registry, c: Cluster, plan: seq<FenceAction>, now: Time)
    requires LedgerDeclared(r) && KeepsHeld(r, c) && c.id in r.clusters && PutCluster(r, c).Success?
    ensures LedgerDeclared(PutCluster(r, c).value)
    ensures LedgerDeclared(FenceCluster(PutCluster(r, c).value, PolicyGenerationChange, plan, now).reg)
  {
    ReportStaysDeclared(r, c);
    FencedStaysDeclared(WithCluster(r, c.id, c), PolicyGenerationChange, plan, now);
  }

  lemma ReportedStaysDeclared(s: Coord, conn: nat, token: Uuid, incoming: Cluster, plan: seq<FenceAction>, now: Time)
    requires LedgerDeclared(s.reg) && KeepsHeld(s.reg, incoming)
    ensures LedgerDeclared(OnReport(s, conn, token, incoming, plan, now).reg)
  {
    if incoming.id in s.reg.clusters {
      var c := s.reg.clusters[incoming.id];
      ChangedStaysDeclared(s.reg, incoming.id, c.(generationConflict := true), Manual, plan, now);
      var accepted := Accepted(c, incoming);
      if PutCluster(s.reg, accepted).Success? { AcceptedStaysDeclared(s.reg, accepted, plan, now); }
    }
  }

  lemma CommittedStaysDeclared(
      s: Coord, conn: nat, token: Uuid, g: Uuid, attempt: Uuid, installed: bool, ids: Two<Uuid>, now: Time)
    requires LedgerDeclared(s.reg)
    ensures LedgerDeclared(OnCommitted(s, conn, token, g, attempt, installed, ids, now).reg)
  {
    AbortIsQuiet(s, g);
    QuietKeepsDeclared(s.reg, Abort(s, g).reg);
    var side := ReplySide(s, conn, token, g, attempt);
    if side.Some? {
      var next := s.(reg := WithGrant(s.reg, g, Acknowledge(s.reg.grants[g], side.value)));
      GrantStaysDeclared(s.reg, g, Acknowledge(s.reg.grants[g], side.value));
      FinaliseStaysDeclared(next, g, ids, now);
    }
  }

  lemma StatusStaysDeclared(
      s: Coord, conn: nat, token: Uuid, entries: seq<StatusEntry>, plan: seq<FenceAction>, work: seq<(Uuid, Two<Uuid>)>,
      now: Time)
    requires LedgerDeclared(s.reg)
    ensures LedgerDeclared(OnStatusReport(s, conn, token, entries, plan, work, now).reg)
  {
    if Authentic(s, conn, token) {
      var assessed := AssessedReg(s, conn, entries);
      AssessIsQuiet(s.reg, s.sessions[conn], entries);
      QuietKeepsDeclared(s.reg, assessed);
      FencedStaysDeclared(assessed, GrantRevocation, plan, now);
      FinaliseAllStaysDeclared(s.(reg := ApplyPlan(assessed, GrantRevocation, plan, now).reg), work, now);
    }
  }

  lemma WithdrawnStaysDeclared(
      s: Coord, conn: nat, token: Uuid, cluster: Name, incarnation: Uuid, generation: nat, plan: seq<FenceAction>,
      now: Time)
    requires LedgerDeclared(s.reg)
    ensures LedgerDeclared(OnWithdraw(s, conn, token, cluster, incarnation, generation, plan, now).reg)
  {
    if cluster in s.reg.clusters {
      ChangedStaysDeclared(s.reg, cluster, s.reg.clusters[cluster].(consentWithdrawn := true), ClusterWithdrawal, plan,
                           now);
    }
  }

  lemma ReceiveStaysDeclared(s: Coord, conn: nat, m: Message, x: Choices)
    requires LedgerDeclared(s.reg) && (m.ReportMessage? ==> KeepsHeld(s.reg, m.record))
    ensures LedgerDeclared(Receive(s, conn, m, x).reg)
  {
    match m
    case HelloMessage(h) => HelloStaysDeclared(s, conn, h, x.token, x.plan, x.now);
    case ReportMessage(token, record) => ReportedStaysDeclared(s, conn, token, record, x.plan, x.now);
    case ConsentMessage(token, n) =>
      ConsentIsQuiet(s, conn, token, n, x.now);
      QuietKeepsDeclared(s.reg, Receive(s, conn, m, x).reg);
    case PreparedMessage(token, g, attempt, accepted) =>
      PreparedIsQuiet(s, conn, token, g, attempt, accepted);
      QuietKeepsDeclared(s.reg, Receive(s, conn, m, x).reg);
    case CommittedMessage(token, g, attempt, installed) =>
      CommittedStaysDeclared(s, conn, token, g, attempt, installed, x.ids, x.now);
    case AbortedMessage(token, g) =>
      AbortIsQuiet(s, g);
      QuietKeepsDeclared(s.reg, Abort(s, g).reg);
    case WithdrawMessage(token, c, incarnation, generation) =>
      WithdrawnStaysDeclared(s, conn, token, c, incarnation, generation, x.plan, x.now);
    case StatusMessage(token, entries) => StatusStaysDeclared(s, conn, token, entries, x.plan, x.work, x.now);
  }

  // ---- administration and restart ----

  lemma ExpireStaysDeclared(s: Coord, plan: seq<FenceAction>, now: Time)
    requires LedgerDeclared(s.reg)
    ensures LedgerDeclared(ExpireGrants(s, plan, now).reg)
  {
    FencedStaysDeclared(s.reg, GrantExpiry, plan, now);
  }

  lemma ClusterStepStaysDeclared(s: Coord, a: AdminStep, digest: Terms -> Digest)
    requires LedgerDeclared(s.reg) && (a.ChangesConsent? || a.Resolves? || a.SetsClusterState?)
    ensures LedgerDeclared(Administer(s, a, digest).reg)
  {
    if a.cluster in s.reg.clusters {
      var c := s.reg.clusters[a.cluster];
      match a
      case ChangesConsent(id, withdraw, plan, now) =>
        ChangedStaysDeclared(s.reg, id, c.(consentWithdrawn := withdraw), ClusterWithdrawal, plan, now);
      case Resolves(id, generation, plan, now) =>
        ChangedStaysDeclared(s.reg, id, c.(generationConflict := false, generation := generation), Manual, plan, now);
      case SetsClusterState(id, state, plan, now) =>
        ChangedStaysDeclared(s.reg, id, c.(state := state), Manual, plan, now);
    }
  }

  lemma AdministerStaysDeclared(s: Coord, a: AdminStep, digest: Terms -> Digest, exact: bool)
    requires LedgerOk(s.reg, exact) && AdminFits(s, a) && LedgerDeclared(s.reg)
    ensures LedgerDeclared(Administer(s, a, digest).reg)
  {
    match a
    case Expires(plan, now) => ExpireStaysDeclared(s, plan, now);
    case Retries(now) =>
      RetryIsQuiet(s, now);
      QuietKeepsDeclared(s.reg, RetryPending(s, now).reg);
    case Fences(trigger, plan, now) => FencedStaysDeclared(s.reg, trigger, plan, now);
    case EditsTopology(_, _, _) =>
    case Proposes(_, _, _) =>
      NewRecordsAreQuiet(s, a, digest);
      QuietKeepsDeclared(s.reg, Administer(s, a, digest).reg);
    case Issues(_, _, _, _, _) =>
      NewRecordsAreQuiet(s, a, digest);
      QuietKeepsDeclared(s.reg, Administer(s, a, digest).reg);
    case Revalidates(_, _, _) =>
      NewRecordsAreQuiet(s, a, digest);
      QuietKeepsDeclared(s.reg, Administer(s, a, digest).reg);
    case _ => ClusterStepStaysDeclared(s, a, digest);
  }

  lemma StepStaysDeclared(s: Coord, step: LedgerStep, digest: Terms -> Digest, exact: bool)
    requires LedgerOk(s.reg, exact) && StepFits(s, step, exact) && StepKeepsHeld(s, step) && LedgerDeclared(s.reg)
    ensures LedgerDeclared(LedgerNext(s, step, digest).reg)
  {
    match step
    case Receives(conn, m, x) => ReceiveStaysDeclared(s, conn, m, x);
    case Loses(conn) =>
      DisconnectIsQuiet(s, conn);
      QuietKeepsDeclared(s.reg, HandleDisconnect(s, conn).reg);
    case Runs(a) => AdministerStaysDeclared(s, a, digest, exact);
    case Recovers(recovered, _, _, _, plan, now) => RecoveryFencesAll(recovered, plan, now);
  }

  // ---- runs ----

  ghost predicate IsKeepingRun(states: seq<Coord>, steps: seq<LedgerStep>, digest: Terms -> Digest, exact: bool) {
    && IsLedgerRun(states, steps, digest, exact)
    && forall i {:trigger steps[i]} | 0 <= i < |steps| :: StepKeepsHeld(states[i], steps[i])
  }

  /** At every state of such a run every unreleased reservation is against a declared endpoint. */
  lemma {:induction false} AlwaysDeclared(
      states: seq<Coord>, steps: seq<LedgerStep>, digest: Terms -> Digest, exact: bool, i: nat)
    requires IsKeepingRun(states, steps, digest, exact) && i < |states|
    ensures LedgerDeclared(states[i].reg)
    decreases i
  {
    if i > 0 {
      AlwaysDeclared(states, steps, digest, exact, i - 1);
      LedgerAlways(states, steps, digest, exact, i - 1);
      assert StepKeepsHeld(states[i - 1], steps[i - 1]);
      StepStaysDeclared(states[i - 1], steps[i - 1], digest, exact);
    }
  }

  // ---- the fences of a run ----

  /** A plan a handler applies, and the registry it applies it to. */
  datatype Fence = Fence(reg: Registry, trigger: FenceTrigger, plan: seq<FenceAction>, at: Time)

  function ReportFence(s: Coord, conn: nat, token: Uuid, incoming: Cluster, x: Choices): Option<Fence> {
    if !Authentic(s, conn, token) || incoming.id != s.sessions[conn].cluster || incoming.id !in s.reg.clusters then None
    else
      var c := s.reg.clusters[incoming.id];
      if incoming.generation < c.generation || incoming.incarnation != c.incarnation then None
      else if Clashes(c, incoming) then
        Some(Fence(WithCluster(s.reg, incoming.id, c.(generationConflict := true)), Manual, x.plan, x.now))
      else if incoming.policyGeneration <= c.policyGeneration || PutCluster(s.reg, Accepted(c, incoming)).Failure?
        then None
      else Some(Fence(WithCluster(s.reg, incoming.id, Accepted(c, incoming)), PolicyGenerationChange, x.plan, x.now))
  }

  function WithdrawFence(
      s: Coord, conn: nat, token: Uuid, cluster: Name, incarnation: Uuid, generation: nat, x: Choices): Option<Fence>
  {
    if !Authentic(s, conn, token) || cluster != s.sessions[conn].cluster || cluster !in s.reg.clusters then None
    else
      var c := s.reg.clusters[cluster];
      if incarnation != c.incarnation || generation < c.generation then None
      else Some(Fence(WithCluster(s.reg, cluster, c.(consentWithdrawn := true)), ClusterWithdrawal, x.plan, x.now))
  }

  function HelloFence(s: Coord, h: Hello, x: Choices): Option<Fence> {
    match RecordToFence(s.reg, h)
    case None => None
    case Some(c) =>
      var trigger := if h.incarnation != s.reg.clusters[h.cluster].incarnation then ClusterReincarnation
        else PolicyGenerationChange;
      Some(Fence(WithCluster(s.reg, h.cluster, c), trigger, x.plan, x.now))
  }

  function MessageFence(s: Coord, conn: nat, m: Message, x: Choices): Option<Fence> {
    match m
    case HelloMessage(h) => HelloFence(s, h, x)
    case ReportMessage(token, record) => ReportFence(s, conn, token, record, x)
    case WithdrawMessage(token, c, incarnation, generation) =>
      WithdrawFence(s, conn, token, c, incarnation, generation, x)
    case StatusMessage(token, entries) =>
      if Authentic(s, conn, token) then Some(Fence(AssessedReg(s, conn, entries), GrantRevocation, x.plan, x.now))
        else None
    case _ => None
  }

  function AdminFence(s: Coord, a: AdminStep): Option<Fence> {
    match a
    case Expires(plan, now) => Some(Fence(s.reg, GrantExpiry, plan, now))
    case ChangesConsent(c, withdraw, plan, now) =>
      if c !in s.reg.clusters || !withdraw then None
      else Some(Fence(WithCluster(s.reg, c, s.reg.clusters[c].(consentWithdrawn := true)), ClusterWithdrawal, plan,
                      now))
    case Resolves(c, generation, plan, now) =>
      if c !in s.reg.clusters || !s.reg.clusters[c].generationConflict || generation <= s.reg.clusters[c].generation
        then None
      else
        var resolved := s.reg.clusters[c].(generationConflict := false, generation := generation);
        Some(Fence(WithCluster(s.reg, c, resolved), Manual, plan, now))
    case SetsClusterState(c, state, plan, now) =>
      if c !in s.reg.clusters || state != ClusterRetired then None
      else Some(Fence(WithCluster(s.reg, c, s.reg.clusters[c].(state := state)), Manual, plan, now))
    case Fences(trigger, plan, now) => Some(Fence(s.reg, trigger, plan, now))
    case _ => None
  }

  /** The fence of a step; the one of a restart is over a registry of which nothing is known. */
  function FenceOf(s: Coord, step: LedgerStep): Option<Fence> {
    match step
    case Receives(conn, m, x) => MessageFence(s, conn, m, x)
    case Runs(a) => AdminFence(s, a)
    case _ => None
  }

  function Applied(f: Fence): Registry { ApplyPlan(f.reg, f.trigger, f.plan, f.at).reg }

  /** The ledger is as the fence leaves it. */
  predicate LedgerOf(r: Registry, f: Fence) {
    r.reservations == Applied(f).reservations && r.clusters == Applied(f).clusters
  }

  lemma ClosedLedger(f: Fence)
    ensures LedgerOf(FenceCluster(f.reg, f.trigger, f.plan, f.at).reg, f)
  {
    FenceClusterParts(f.reg, f.trigger, f.plan, f.at);
  }

  lemma HelloApplies(s: Coord, conn: nat, h: Hello, x: Choices)
    requires HelloFence(s, h, x).Some?
    ensures LedgerOf(OnHello(s, conn, h, x.token, x.plan, x.now).reg, HelloFence(s, h, x).value)
  {
    ClosedLedger(HelloFence(s, h, x).value);
  }

  lemma ReportApplies(s: Coord, conn: nat, token: Uuid, incoming: Cluster, x: Choices)
    requires ReportFence(s, conn, token, incoming, x).Some?
    ensures LedgerOf(OnReport(s, conn, token, incoming, x.plan, x.now).reg,
                     ReportFence(s, conn, token, incoming, x).value)
  {
    ClosedLedger(ReportFence(s, conn, token, incoming, x).value);
  }

  lemma WithdrawApplies(
      s: Coord, conn: nat, token: Uuid, cluster: Name, incarnation: Uuid, generation: nat, x: Choices)
    requires WithdrawFence(s, conn, token, cluster, incarnation, generation, x).Some?
    ensures LedgerOf(OnWithdraw(s, conn, token, cluster, incarnation, generation, x.plan, x.now).reg,
                     WithdrawFence(s, conn, token, cluster, incarnation, generation, x).value)
  {
    ClosedLedger(WithdrawFence(s, conn, token, cluster, incarnation, generation, x).value);
  }

  lemma AdminApplies(s: Coord, a: AdminStep, digest: Terms -> Digest)
    requires AdminFence(s, a).Some?
    ensures LedgerOf(Administer(s, a, digest).reg, AdminFence(s, a).value)
  {
    ClosedLedger(AdminFence(s, a).value);
  }

  /** The step leaves the ledger as its fence does; a status report goes on from there to make grants usable. */
  lemma FenceIsApplied(s: Coord, step: LedgerStep, digest: Terms -> Digest)
    requires FenceOf(s, step).Some? && !(step.Receives? && step.message.StatusMessage?)
    ensures LedgerOf(LedgerNext(s, step, digest).reg, FenceOf(s, step).value)
  {
    match step
    case Receives(conn, m, x) =>
      match m {
        case HelloMessage(h) => HelloApplies(s, conn, h, x);
        case ReportMessage(token, record) => ReportApplies(s, conn, token, record, x);
        case WithdrawMessage(token, c, incarnation, generation) =>
          WithdrawApplies(s, conn, token, c, incarnation, generation, x);
      }
    case Runs(a) => AdminApplies(s, a, digest);
  }

  ghost predicate Countable(r: Registry) {
    UniqueOwners(r) && Covered(r) && LedgerDeclared(r)
  }

  lemma LedgerIsCountable(r: Registry, exact: bool)
    requires LedgerOk(r, exact) && LedgerDeclared(r)
    ensures Countable(r)
  {
    forall c, e | Declares(r, c, e) ensures Held(r.reservations, e) <= Counter(r, c, e) {
      assert CounterOk(r, c, e, exact);
    }
  }

  lemma QuietIsCountable(r: Registry, s: Registry, exact: bool)
    requires LedgerOk(r, exact) && LedgerDeclared(r) && Quiet(r, s)
    ensures Countable(s)
  {
    QuietKeepsLedger(r, s, exact);
    QuietKeepsDeclared(r, s);
    LedgerIsCountable(s, exact);
  }

  lemma ReportIsCountable(s: Coord, conn: nat, token: Uuid, incoming: Cluster, x: Choices, exact: bool)
    requires LedgerOk(s.reg, exact) && LedgerDeclared(s.reg) && KeepsHeld(s.reg, incoming)
    requires GrantsLead(s.reg, x.plan) && ReportMatches(s.reg, incoming, exact) && OwnsAlone(s.reg, incoming)
    requires ReportFence(s, conn, token, incoming, x).Some?
    ensures Countable(ReportFence(s, conn, token, incoming, x).value.reg)
  {
    var c := s.reg.clusters[incoming.id];
    if Clashes(c, incoming) {
      ClusterChangeIsQuiet(s.reg, incoming.id, c.(generationConflict := true));
      QuietIsCountable(s.reg, WithCluster(s.reg, incoming.id, c.(generationConflict := true)), exact);
    } else {
      var accepted := Accepted(c, incoming);
      AcceptedKeepsLedger(s.reg, accepted, PolicyGenerationChange, x.plan, x.now, exact);
      ReportStaysDeclared(s.reg, accepted);
      LedgerIsCountable(WithCluster(s.reg, incoming.id, accepted), exact);
    }
  }

  lemma ClusterFenceIsCountable(r: Registry, id: Name, c: Cluster, exact: bool)
    requires LedgerOk(r, exact) && LedgerDeclared(r) && id in r.clusters && c.endpoints == r.clusters[id].endpoints
    ensures Countable(WithCluster(r, id, c))
  {
    ClusterChangeIsQuiet(r, id, c);
    QuietIsCountable(r, WithCluster(r, id, c), exact);
  }

  lemma MessageIsCountable(s: Coord, conn: nat, m: Message, x: Choices, exact: bool)
    requires LedgerOk(s.reg, exact) && LedgerDeclared(s.reg) && MessageFits(s, conn, m, x, exact)
    requires MessageFence(s, conn, m, x).Some? && (m.ReportMessage? ==> KeepsHeld(s.reg, m.record))
    ensures Countable(MessageFence(s, conn, m, x).value.reg)
  {
    match m
    case HelloMessage(h) => ClusterFenceIsCountable(s.reg, h.cluster, RecordToFence(s.reg, h).value, exact);
    case ReportMessage(token, record) => ReportIsCountable(s, conn, token, record, x, exact);
    case WithdrawMessage(_, c, _, _) =>
      ClusterFenceIsCountable(s.reg, c, s.reg.clusters[c].(consentWithdrawn := true), exact);
    case StatusMessage(_, entries) =>
      AssessIsQuiet(s.reg, s.sessions[conn], entries);
      QuietIsCountable(s.reg, AssessedReg(s, conn, entries), exact);
  }

  lemma AdminIsCountable(s: Coord, a: AdminStep, exact: bool)
    requires LedgerOk(s.reg, exact) && LedgerDeclared(s.reg) && AdminFence(s, a).Some?
    ensures Countable(AdminFence(s, a).value.reg)
  {
    LedgerIsCountable(s.reg, exact);
    match a
    case ChangesConsent(c, _, _, _) =>
      ClusterFenceIsCountable(s.reg, c, s.reg.clusters[c].(consentWithdrawn := true), exact);
    case Resolves(c, generation, _, _) =>
      var resolved := s.reg.clusters[c].(generationConflict := false, generation := generation);
      ClusterFenceIsCountable(s.reg, c, resolved, exact);
    case SetsClusterState(c, state, _, _) =>
      ClusterFenceIsCountable(s.reg, c, s.reg.clusters[c].(state := state), exact);
    case _ =>
  }

  lemma StepIsCountable(s: Coord, step: LedgerStep, exact: bool)
    requires LedgerOk(s.reg, exact) && LedgerDeclared(s.reg) && StepFits(s, step, exact) && StepKeepsHeld(s, step)
    requires FenceOf(s, step).Some?
    ensures Countable(FenceOf(s, step).value.reg)
  {
    match step
    case Receives(conn, m, x) => MessageIsCountable(s, conn, m, x, exact);
    case Runs(a) => AdminIsCountable(s, a, exact);
  }

  /** In every ledger run whose reports keep the endpoints that hold a reservation, each fence reports as
      released exactly what the counters give back. */
  lemma FencesReportDecrease(
      states: seq<Coord>, steps: seq<LedgerStep>, digest: Terms -> Digest, exact: bool, i: nat)
    requires IsKeepingRun(states, steps, digest, exact) && i < |steps| && FenceOf(states[i], steps[i]).Some?
    ensures var f := FenceOf(states[i], steps[i]).value;
            var t := ApplyPlan(f.reg, f.trigger, f.plan, f.at);
            t.tally.capacityReleased + TotalReserved(t.reg) == TotalReserved(f.reg)
  {
    AlwaysDeclared(states, steps, digest, exact, i);
    LedgerAlways(states, steps, digest, exact, i);
    assert StepKeepsHeld(states[i], steps[i]);
    StepIsCountable(states[i], steps[i], exact);
    var f := FenceOf(states[i], steps[i]).value;
    TallyIsCounterDecrease(f.reg, f.trigger, f.plan, f.at);
    DeclaredIsCounted(f.reg, f.plan);
  }

  // ---- a report that drops an endpoint ----

  const NAME: Name := [1]
  const SHARED: Name := [5]
  const ENDPOINT := Endpoint(SHARED, NAME, 10, 10, 1, EndpointActive, true, false, EndpointNotes([], NO_PROVENANCE))
  const BEFORE := Cluster(NAME, [3], 7, 1, 1, ClusterActive, false, map[SHARED := ENDPOINT], 0, false,
                          ClusterNotes(0, None, 0, NO_PROVENANCE, 0))
  const AFTER := BEFORE.(endpoints := map[])
  const HOLDING := Reservation(31, 21, SHARED, NAME, 10, false, ReservationNotes(0, 0, 0, NO_PROVENANCE))
  const FULL := EMPTY_REGISTRY.(clusters := map[NAME := BEFORE], reservations := map[31 := HOLDING])
  const DROPPED := EMPTY_REGISTRY.(clusters := map[NAME := AFTER], reservations := map[31 := HOLDING])
  const SERVING := Coord(FULL, map[1 := Session(NAME, 7, 1, 1, 11, 0)], map[], 1, 1, Config(true, 100, 50))
  const CHOICES := Choices(0, [], [], Two(0, 0), 0)
  const REPORT := Receives(1, ReportMessage(11, AFTER), CHOICES)

  lemma HeldInFull(e: Name)
    ensures Held(FULL.reservations, e) == if e == SHARED then 10 else 0
  {
    SumRemove(FULL.reservations, HeldFor(e), 31);
    SumZero(FULL.reservations - {31}, HeldFor(e));
  }

  lemma FullIsInOrder()
    ensures LedgerOk(FULL, true)
  {
    forall c, e | Declares(FULL, c, e) ensures CounterOk(FULL, c, e, true) { HeldInFull(e); }
  }

  lemma StoresReport()
    ensures PutCluster(FULL, AFTER) == Success(DROPPED)
  {
    assert |AFTER.endpoints| == 0;
    assert FULL.clusters[NAME := AFTER] == DROPPED.clusters;
  }

  lemma ReportIsAccepted(digest: Terms -> Digest)
    ensures StepFits(SERVING, REPORT, true) && LedgerNext(SERVING, REPORT, digest).reg == DROPPED
  {
    StoresReport();
  }

  /** An exact run may accept a report without the endpoint that holds a reservation.  The ledger stays in
      order, but the fence that follows reports the amount as released although no counter gives it back. */
  lemma DroppedEndpointMiscounts(digest: Terms -> Digest)
    ensures LedgerOk(SERVING.reg, true) && StepFits(SERVING, REPORT, true) && !StepKeepsHeld(SERVING, REPORT)
    ensures var r := LedgerNext(SERVING, REPORT, digest).reg;
            var s := ApplyPlan(r, Manual, [ReleaseReservation(31)], 0);
            LedgerOk(r, true) && s.tally.capacityReleased + TotalReserved(s.reg) != TotalReserved(r)
  {
    FullIsInOrder();
    ReportIsAccepted(digest);
    assert HeldBy(FULL.reservations[31], FULL.clusters[AFTER.id]);
    StepKeepsLedger(SERVING, REPORT, digest, true);
    LedgerIsCovered(DROPPED);
    var plan := [ReleaseReservation(31)];
    assert Lines(DROPPED, plan[..0]) == {};
    assert ReleasesStray(DROPPED, plan, 0);
    TallyIsCounterDecrease(DROPPED, Manual, plan, 0);
  }

  lemma LedgerIsCovered(r: Registry)
    requires LedgerOk(r, true)
    ensures UniqueOwners(r) && Covered(r)
  {
    forall c, e | Declares(r, c, e) ensures Held(r.reservations, e) <= Counter(r, c, e) {
      assert CounterOk(r, c, e, true);
    }
  }
}
