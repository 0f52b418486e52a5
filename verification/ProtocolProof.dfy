/** The invariant of the protocol holds in every run. */
module ProtocolProof {
  import opened Model
  import opened Engine
  import opened Fencing
  import opened Planning
  import opened Coordination
  import opened Frames
  import opened Agents
  import opened AgentRuns
  import opened Evidence
  import opened Protocol

  // ---- sessions ----

  /** Sessions keep their peer; none appears. */
  predicate SessionsKept(s: Coord, t: Coord) {
    forall n <- t.sessions ::
      n in s.sessions && t.sessions[n].cluster == s.sessions[n].cluster
        && t.sessions[n].incarnation == s.sessions[n].incarnation
  }

  lemma FinaliseKeepsSessions(s: Coord, g: Uuid, ids: Two<Uuid>, now: Time)
    ensures var t := Finalise(s, g, ids, now).coord; t.sessions == s.sessions && t.incarnation == s.incarnation
  {
  }

  lemma {:induction false} FinaliseAllKeepsSessions(s: Coord, work: seq<(Uuid, Two<Uuid>)>, now: Time)
    ensures var t := FinaliseAll(s, work, now); t.sessions == s.sessions && t.incarnation == s.incarnation
    decreases |work|
  {
    if work != [] {
      FinaliseKeepsSessions(s, work[0].0, work[0].1, now);
      FinaliseAllKeepsSessions(s, work[1..], now);
      FinaliseAllKeepsSessions(Finalise(s, work[0].0, work[0].1, now).coord, work[1..], now);
    }
  }

  lemma StatusKeepsSessions(
      s: Coord, conn: nat, token: Uuid, entries: seq<StatusEntry>, plan: seq<FenceAction>, work: seq<(Uuid,
      Two<Uuid>)>, now: Time)
    ensures var t := OnStatusReport(s, conn, token, entries, plan, work, now);
            t.sessions == s.sessions && t.incarnation == s.incarnation
  {
    if Authentic(s, conn, token) {
      var assessed := s.reg.(grants := AssessAll(s.reg, s.sessions[conn], entries));
      FinaliseAllKeepsSessions(s.(reg := ApplyPlan(assessed, GrantRevocation, plan, now).reg), work, now);
    }
  }

  lemma CommittedKeepsSessions(
      s: Coord, conn: nat, token: Uuid, g: Uuid, attempt: Uuid, installed: bool, ids: Two<Uuid>, now: Time)
    ensures var t := OnCommitted(s, conn, token, g, attempt, installed, ids, now);
            t.sessions == s.sessions && t.incarnation == s.incarnation
  {
  }

  lemma PreparedKeepsSessions(s: Coord, conn: nat, token: Uuid, g: Uuid, attempt: Uuid, accepted: bool)
    ensures var t := OnPrepared(s, conn, token, g, attempt, accepted);
            t.sessions == s.sessions && t.incarnation == s.incarnation
  {
  }

  lemma ReportKeepsSessions(s: Coord, conn: nat, token: Uuid, incoming: Cluster, plan: seq<FenceAction>, now: Time)
    ensures var t := OnReport(s, conn, token, incoming, plan, now); SessionsKept(s, t) && t.incarnation == s.incarnation
  {
  }

  lemma ReceiveSessions(s: Coord, conn: nat, m: Message, x: Choices, conns: map<nat, Peer>)
    requires SessionsOk(s, conns) && conn in conns
    requires m.HelloMessage? ==>
             m.hello.cluster == conns[conn].cluster && m.hello.incarnation == conns[conn].incarnation
    ensures SessionsOk(Receive(s, conn, m, x), conns) && Receive(s, conn, m, x).incarnation == s.incarnation
  {
    match m
    case ReportMessage(token, record) => ReportKeepsSessions(s, conn, token, record, x.plan, x.now);
    case PreparedMessage(token, g, attempt, accepted) => PreparedKeepsSessions(s, conn, token, g, attempt, accepted);
    case CommittedMessage(token, g, attempt, installed) =>
      CommittedKeepsSessions(s, conn, token, g, attempt, installed, x.ids, x.now);
    case StatusMessage(token, entries) => StatusKeepsSessions(s, conn, token, entries, x.plan, x.work, x.now);
    case _ =>
  }

  lemma AdministerSessions(s: Coord, a: AdminStep, digest: Terms -> Digest)
    ensures var t := Administer(s, a, digest); t.sessions == s.sessions && t.incarnation == s.incarnation
  {
  }

  // ---- the coordinator's records ----

  lemma TameKeepsRecords(r: Registry, s: Registry, incarnation: Uuid, h: History, digest: Terms -> Digest)
    requires Tame(r, s) && GrantsBacked(r, incarnation, h) && ContractsBacked(r, h, digest)
    ensures GrantsBacked(s, incarnation, h) && ContractsBacked(s, h, digest)
  {
    assert Extends(h, h);
    TameKeepsGrants(r, s, incarnation, h, h);
    KeptContractsBacked(r, s, h, h, digest);
  }

  /** The messages whose handling gives nothing. */
  predicate Harmless(m: Message) {
    !m.ConsentMessage? && !m.CommittedMessage? && !m.StatusMessage?
  }

  lemma HarmlessIsTame(s: Coord, conn: nat, m: Message, x: Choices)
    requires Harmless(m)
    ensures Tame(s.reg, Receive(s, conn, m, x).reg)
  {
    TameReflexive(s.reg);
    match m
    case HelloMessage(h) => HelloIsTame(s, conn, h, x.token, x.plan, x.now);
    case ReportMessage(token, record) => ReportIsTame(s, conn, token, record, x.plan, x.now);
    case PreparedMessage(token, g, attempt, accepted) => PreparedIsTame(s, conn, token, g, attempt, accepted);
    case AbortedMessage(token, g) => AbortIsTame(s, g);
    case WithdrawMessage(token, c, incarnation, generation) =>
      WithdrawIsTame(s, conn, token, c, incarnation, generation, x.plan, x.now);
  }

  lemma ReceiveRecords(s: Coord, conn: nat, m: Message, x: Choices, h: History, digest: Terms -> Digest, p: Peer)
    requires SessionFits(s, conn, p) && Honest(h, digest, p, m)
    requires GrantsBacked(s.reg, s.incarnation, h) && ContractsBacked(s.reg, h, digest)
    ensures var t := Receive(s, conn, m, x); GrantsBacked(t.reg, s.incarnation, h) && ContractsBacked(t.reg, h, digest)
  {
    assert Extends(h, h);
    var t := Receive(s, conn, m, x);
    if Harmless(m) {
      HarmlessIsTame(s, conn, m, x);
      TameKeepsRecords(s.reg, t.reg, s.incarnation, h, digest);
    } else {
      match m
      case ConsentMessage(token, n) =>
        ConsentKeepsBacked(s, conn, token, n, x.now, h, digest, p);
        ConsentKeepsGrants(s, conn, token, n, x.now, h);
      case CommittedMessage(token, g, attempt, installed) =>
        CommittedKeepsBacked(s, conn, token, g, attempt, installed, x.ids, x.now, h, p);
        KeptContractsBacked(s.reg, t.reg, h, h, digest);
      case StatusMessage(token, entries) =>
        StatusKeepsBacked(s, conn, token, entries, x.plan, x.work, x.now, h, p);
        KeptContractsBacked(s.reg, t.reg, h, h, digest);
    }
  }

  lemma ConsentKeepsGrants(s: Coord, conn: nat, token: Uuid, n: ConsentNotice, now: Time, h: History)
    requires GrantsBacked(s.reg, s.incarnation, h)
    ensures GrantsBacked(OnConsent(s, conn, token, n, now).reg, s.incarnation, h)
  {
    var t := OnConsent(s, conn, token, n, now);
    assert t.reg.grants == s.reg.grants && t.reg.contracts.Keys == s.reg.contracts.Keys;
    assert forall c <- s.reg.contracts :: t.reg.contracts[c].parties == s.reg.contracts[c].parties;
    forall g | g in t.reg.grants ensures GrantBacked(t.reg, s.incarnation, h, g) {
      assert GrantBacked(s.reg, s.incarnation, h, g);
    }
  }

  predicate Routine(a: AdminStep) {
    !a.Proposes? && !a.Issues? && !a.Revalidates?
  }

  lemma RoutineIsTame(s: Coord, a: AdminStep, digest: Terms -> Digest)
    requires Routine(a)
    ensures Tame(s.reg, Administer(s, a, digest).reg)
  {
    match a
    case Expires(plan, now) => ExpireIsTame(s, plan, now);
    case Retries(now) => RetryIsTame(s, now);
    case ChangesConsent(c, withdraw, plan, now) => ConsentChangeIsTame(s, c, withdraw, plan, now);
    case Resolves(c, generation, plan, now) => ResolveIsTame(s, c, generation, plan, now);
    case SetsClusterState(c, state, plan, now) => SetStateIsTame(s, c, state, plan, now);
    case Fences(trigger, plan, now) => PlanIsTame(s.reg, trigger, plan, now);
    case EditsTopology(links, paths, policies) => TameReflexive(s.reg);
  }

  lemma AdministerRecords(s: Coord, a: AdminStep, h: History, k: History, digest: Terms -> Digest)
    requires GrantsBacked(s.reg, s.incarnation, h) && ContractsBacked(s.reg, h, digest) && Extends(h, k)
    requires a.Proposes? ==> UnusedContract(s.reg, a.id) && ProposalsOf(s, a.proposal, a.now) <= k.proposals
    ensures var t := Administer(s, a, digest);
            GrantsBacked(t.reg, s.incarnation, k) && ContractsBacked(t.reg, k, digest)
  {
    var t := Administer(s, a, digest);
    if Routine(a) {
      RoutineIsTame(s, a, digest);
      TameKeepsGrants(s.reg, t.reg, s.incarnation, h, k);
      KeptContractsBacked(s.reg, t.reg, h, k, digest);
    } else {
      TameReflexive(s.reg);
      TameKeepsGrants(s.reg, s.reg, s.incarnation, h, k);
      KeptContractsBacked(s.reg, s.reg, h, k, digest);
      assert Extends(k, k);
      match a
      case Proposes(p, id, now) => ProposeKeepsBacked(s, p, id, digest, now, h, k);
      case Issues(c, capacity, id, attempt, now) =>
        IssueKeepsBacked(s, c, capacity, id, attempt, now, k);
        KeptContractsBacked(s.reg, t.reg, k, k, digest);
      case Revalidates(g, attempt, now) =>
        RevalidateKeepsBacked(s, g, attempt, now, k);
        KeptContractsBacked(s.reg, t.reg, k, k, digest);
    }
  }

  lemma RestartRecords(
      recovered: Registry, term: nat, incarnation: Uuid, config: Config, plan: seq<FenceAction>, now: Time, h: History,
      digest: Terms -> Digest)
    requires StoredBacked(h, digest)
    requires forall c <- recovered.contracts :: recovered.contracts[c].id == c && recovered.contracts[c] in h.stored
    requires forall g <- recovered.grants ::
             recovered.grants[g].id == g && recovered.grants[g].coordinator != incarnation
    ensures var t := Restarted(recovered, term, incarnation, config, plan, now);
            GrantsBacked(t.reg, incarnation, h) && ContractsBacked(t.reg, h, digest)
  {
    assert GrantsBacked(recovered, incarnation, h);
    assert ContractsBacked(recovered, h, digest);
    PlanIsTame(recovered, CoordinatorReincarnation, plan, now);
    TameKeepsRecords(recovered, ApplyPlan(recovered, CoordinatorReincarnation, plan, now).reg, incarnation, h, digest);
  }

  // ---- a step of the coordinator ----

  /** Whatever the coordinator now holds is added to what a restart may find. */
  lemma StoringKeepsBacked(w: World, s: Coord, proposals: set<Terms>, digest: Terms -> Digest)
    requires StoredBacked(w.history, digest)
    requires ContractsBacked(s.reg, CoordStep(w, s, proposals).history, digest)
    ensures StoredBacked(CoordStep(w, s, proposals).history, digest)
  {
    var k := CoordStep(w, s, proposals).history;
    forall c | c in k.stored ensures ContractBacked(k, digest, c) {
      if c in w.history.stored { ContractBackedStays(w.history, k, digest, c, c); }
    }
  }

  lemma CoordStepKeepsRest(w: World, s: Coord, proposals: set<Terms>, digest: Terms -> Digest)
    requires AgentsOk(w) && NetOk(w, digest)
    ensures var v := CoordStep(w, s, proposals); AgentsOk(v) && NetOk(v, digest) && Extends(w.history, v.history)
  {
    var v := CoordStep(w, s, proposals);
    forall c | c in v.agents ensures AgentOk(v, c, v.agents[c]) { assert AgentOk(w, c, w.agents[c]); }
    forall conn, m | (conn, m) in v.net ensures PacketOk(v, digest, conn, m) {
      assert PacketOk(w, digest, conn, m);
      HonestStays(w.history, v.history, digest, w.conns[conn], m);
    }
  }

  lemma LiftRecords(r: Registry, incarnation: Uuid, h: History, k: History, digest: Terms -> Digest)
    requires GrantsBacked(r, incarnation, h) && ContractsBacked(r, h, digest) && Extends(h, k)
    ensures GrantsBacked(r, incarnation, k) && ContractsBacked(r, k, digest)
  {
    TameReflexive(r);
    TameKeepsGrants(r, r, incarnation, h, k);
    KeptContractsBacked(r, r, h, k, digest);
  }

  /** It is enough that the coordinator's new state is in order under the old history. */
  lemma CoordStepKeepsInv(w: World, s: Coord, digest: Terms -> Digest)
    requires Inv(w, digest) && SessionsOk(s, w.conns)
    requires GrantsBacked(s.reg, s.incarnation, w.history) && ContractsBacked(s.reg, w.history, digest)
    ensures Inv(CoordStep(w, s, {}), digest)
  {
    CoordStepKeepsRest(w, s, {}, digest);
    LiftRecords(s.reg, s.incarnation, w.history, CoordStep(w, s, {}).history, digest);
    StoringKeepsBacked(w, s, {}, digest);
  }

  lemma DeliveryKeepsInv(w: World, conn: nat, m: Message, x: Choices, digest: Terms -> Digest)
    requires Inv(w, digest) && (conn, m) in w.net
    ensures Inv(CoordStep(w, Receive(w.coord, conn, m, x), {}), digest)
  {
    assert PacketOk(w, digest, conn, m);
    ReceiveSessions(w.coord, conn, m, x, w.conns);
    ReceiveRecords(w.coord, conn, m, x, w.history, digest, w.conns[conn]);
    CoordStepKeepsInv(w, Receive(w.coord, conn, m, x), digest);
  }

  lemma DisconnectKeepsInv(w: World, conn: nat, digest: Terms -> Digest)
    requires Inv(w, digest)
    ensures Inv(CoordStep(w, HandleDisconnect(w.coord, conn), {}), digest)
  {
    var s := HandleDisconnect(w.coord, conn);
    DisconnectIsTame(w.coord, conn);
    TameKeepsRecords(w.coord.reg, s.reg, w.coord.incarnation, w.history, digest);
    CoordStepKeepsInv(w, s, digest);
  }

  lemma AdministrationKeepsInv(w: World, a: AdminStep, digest: Terms -> Digest)
    requires Inv(w, digest) && Enabled(w, Administers(a))
    ensures Inv(Next(w, Administers(a), digest), digest)
  {
    var s := Administer(w.coord, a, digest);
    var proposals := if a.Proposes? then ProposalsOf(w.coord, a.proposal, a.now) else {};
    var k := CoordStep(w, s, proposals).history;
    CoordStepKeepsRest(w, s, proposals, digest);
    AdministerSessions(w.coord, a, digest);
    AdministerRecords(w.coord, a, w.history, k, digest);
    StoringKeepsBacked(w, s, proposals, digest);
  }

  lemma RestartKeepsInv(w: World, step: Step, digest: Terms -> Digest)
    requires Inv(w, digest) && step.Restarts? && Enabled(w, step)
    ensures Inv(Next(w, step, digest), digest)
  {
    RestartRecords(step.recovered, step.term, step.incarnation, step.config, step.plan, step.now, w.history, digest);
    CoordStepKeepsInv(w, Restarted(step.recovered, step.term, step.incarnation, step.config, step.plan, step.now),
                      digest);
  }

  // ---- a step of an agent ----

  lemma EnforcedIsActive(a: Agent, h: History, entries: seq<StatusEntry>)
    requires Sound(a, false) && ActiveNow(a) <= h.activations && ListsGrants(a, entries)
    ensures forall i | 0 <= i < |entries| :: Enforcing(entries[i].state) ==>
              Activated(h, Peer(a.cluster, a.incarnation), entries[i].grant, entries[i].attempt)
  {
    forall i | 0 <= i < |entries| && Enforcing(entries[i].state)
      ensures Activated(h, Peer(a.cluster, a.incarnation), entries[i].grant, entries[i].attempt)
    {
      var g :| g in a.reg.grants && entries[i] == Entry(a.reg.grants[g]);
      assert GrantSound(a, g, a.reg.grants[g], false);
      assert Activation(a.cluster, a.incarnation, g, a.reg.grants[g].attempt) in ActiveNow(a);
    }
  }

  lemma CommitIsActive(a: Agent, g: Uuid, attempt: Uuid)
    requires Committable(a, g, attempt)
    ensures Activation(a.cluster, a.incarnation, g, attempt) in ActiveNow(OnCommit(a, g, attempt).agent)
  {
    var b := OnCommit(a, g, attempt).agent;
    assert b.reg.grants[g].state == GrantActive && b.reg.grants[g].attempt == attempt;
  }

  lemma AcceptanceIsHonest(a: Agent, contract: Uuid, t: Terms, digest: Terms -> Digest, h: History)
    requires Acceptable(a, t) ==> Acceptance(a.cluster, t) in h.acceptances
    ensures Honest(h, digest, Peer(a.cluster, a.incarnation),
                   ConsentMessage(a.session, Notice(a, contract, t, digest(t))))
  {
    if Acceptable(a, t) {
      assert t.SideOf(a.cluster) == OwnSide(t.parties, a.cluster);
      assert AcceptedTerms(h, digest, a.cluster, digest(t), Binding(a.incarnation, a.generation, a.policyGeneration),
                           t);
    }
  }

  lemma AgentKeepsConnection(a: Agent, e: AgentEvent, digest: Terms -> Digest)
    ensures var b := AgentNext(a, e, digest).agent;
            b.connection.Some? ==> if e.Connects? then b.connection.value == e.conn else b.connection == a.connection
  {
    if Operates(e) { OperationOperates(a, e, digest); }
  }

  /** The peer never changes while a process runs, and its connection changes only by connecting. */
  lemma AgentKeepsPeer(a: Agent, e: AgentEvent, digest: Terms -> Digest)
    ensures var b := AgentNext(a, e, digest).agent;
            && b.cluster == a.cluster && b.incarnation == a.incarnation
            && (b.connection.Some? ==>
                if e.Connects? then b.connection.value == e.conn else b.connection == a.connection)
  {
    AgentKeepsConnection(a, e, digest);
    if Shrinking(e) { ShrinkingStep(a, e, digest); }
  }

  /** The events whose answer claims something. */
  predicate Claims(e: AgentEvent) {
    e.GetsStatusRequest? || e.GetsCommit? || e.GetsProposal?
  }

  lemma OtherAnswersClaimNothing(a: Agent, e: AgentEvent, digest: Terms -> Digest, m: Message)
    requires m in AgentNext(a, e, digest).sent && !Claims(e)
    ensures !m.StatusMessage? && !m.CommittedMessage? && !m.ConsentMessage?
    ensures m.HelloMessage? ==> m.hello.cluster == a.cluster && m.hello.incarnation == a.incarnation
  {
  }

  /** Every message an agent sends is one it is entitled to send. */
  lemma SentIsHonest(a: Agent, e: AgentEvent, digest: Terms -> Digest, h: History, m: Message)
    requires Sound(a, false) && m in AgentNext(a, e, digest).sent
    requires ActiveNow(a) + ActiveNow(AgentNext(a, e, digest).agent) <= h.activations
    requires AcceptedNow(a, e, AgentNext(a, e, digest)) <= h.acceptances
    ensures Honest(h, digest, Peer(a.cluster, a.incarnation), m)
  {
    if Claims(e) {
      match e
      case GetsStatusRequest(entries) => if ListsGrants(a, entries) { EnforcedIsActive(a, h, entries); }
      case GetsCommit(g, attempt) => if Committable(a, g, attempt) { CommitIsActive(a, g, attempt); }
      case GetsProposal(contract, t, now) => AcceptanceIsHonest(a, contract, t, digest, h);
    } else {
      OtherAnswersClaimNothing(a, e, digest, m);
    }
  }

  lemma AgentStepNet(w: World, c: Name, e: AgentEvent, digest: Terms -> Digest, conn: nat, m: Message)
    requires AgentsOk(w) && NetOk(w, digest) && Enabled(w, AgentActs(c, e))
    requires (conn, m) in AgentStep(w, w.agents[c], e, digest).net
    ensures PacketOk(AgentStep(w, w.agents[c], e, digest), digest, conn, m)
  {
    var a := w.agents[c];
    var v := AgentStep(w, a, e, digest);
    assert AgentOk(w, c, a);
    if (conn, m) in w.net {
      assert PacketOk(w, digest, conn, m);
      HonestStays(w.history, v.history, digest, w.conns[conn], m);
    } else {
      AgentKeepsPeer(a, e, digest);
      SentIsHonest(a, e, digest, v.history, m);
    }
  }

  lemma AgentStepAgents(w: World, c: Name, e: AgentEvent, digest: Terms -> Digest, d: Name)
    requires AgentsOk(w) && Enabled(w, AgentActs(c, e)) && d in AgentStep(w, w.agents[c], e, digest).agents
    ensures AgentOk(AgentStep(w, w.agents[c], e, digest), d, AgentStep(w, w.agents[c], e, digest).agents[d])
  {
    var a := w.agents[c];
    assert AgentOk(w, c, a);
    if d == c {
      AgentKeepsPeer(a, e, digest);
      StepKeepsSound(a, e, digest, false);
    } else {
      assert AgentOk(w, d, w.agents[d]);
    }
  }

  lemma AgentStepKeepsInv(w: World, c: Name, e: AgentEvent, digest: Terms -> Digest)
    requires Inv(w, digest) && Enabled(w, AgentActs(c, e))
    ensures Inv(AgentStep(w, w.agents[c], e, digest), digest)
  {
    assert AgentOk(w, c, w.agents[c]);
    var v := AgentStep(w, w.agents[c], e, digest);
    forall d | d in v.agents ensures AgentOk(v, d, v.agents[d]) { AgentStepAgents(w, c, e, digest, d); }
    forall conn, m | (conn, m) in v.net ensures PacketOk(v, digest, conn, m) { AgentStepNet(w, c, e, digest, conn, m); }
    LiftRecords(w.coord.reg, w.coord.incarnation, w.history, v.history, digest);
    forall k | k in v.history.stored ensures ContractBacked(v.history, digest, k) {
      ContractBackedStays(w.history, v.history, digest, k, k);
    }
  }

  lemma StartKeepsInv(w: World, step: Step, digest: Terms -> Digest)
    requires Inv(w, digest) && step.AgentStarts? && Enabled(w, step)
    ensures Inv(Next(w, step, digest), digest)
  {
    var v := Next(w, step, digest);
    FreshStart(step.agentConfig, step.disk, step.agentTerm, step.agentIncarnation);
    forall d | d in v.agents ensures AgentOk(v, d, v.agents[d]) {
      if d != step.agentConfig.cluster { assert AgentOk(w, d, w.agents[d]); }
    }
    forall conn, m | (conn, m) in v.net ensures PacketOk(v, digest, conn, m) { assert PacketOk(w, digest, conn, m); }
  }

  // ---- every run ----

  lemma StepKeepsInv(w: World, step: Step, digest: Terms -> Digest)
    requires Inv(w, digest) && Enabled(w, step)
    ensures Inv(Next(w, step, digest), digest)
  {
    match step
    case AgentActs(c, e) => AgentStepKeepsInv(w, c, e, digest);
    case AgentStarts(_, _, _, _) => StartKeepsInv(w, step, digest);
    case Delivers(conn, m, x) => DeliveryKeepsInv(w, conn, m, x, digest);
    case Disconnected(conn) => DisconnectKeepsInv(w, conn, digest);
    case Administers(a) => AdministrationKeepsInv(w, a, digest);
    case Restarts(_, _, _, _, _, _) => RestartKeepsInv(w, step, digest);
  }

  ghost predicate Moves(v: World, step: Step, w: World, digest: Terms -> Digest) {
    Enabled(v, step) && w == Next(v, step, digest)
  }

  /** A run: each world follows from the one before by an enabled step. */
  ghost predicate IsRun(worlds: seq<World>, steps: seq<Step>, digest: Terms -> Digest) {
    && |worlds| == |steps| + 1
    && forall i {:trigger steps[i]} | 0 <= i < |steps| :: Moves(worlds[i], steps[i], worlds[i + 1], digest)
  }

  lemma InitHolds(w: World, digest: Terms -> Digest)
    requires Init(w)
    ensures Inv(w, digest)
  {
  }

  lemma RunKeepsInv(worlds: seq<World>, steps: seq<Step>, digest: Terms -> Digest, i: nat)
    requires IsRun(worlds, steps, digest) && i < |steps| && Inv(worlds[i], digest)
    ensures Inv(worlds[i + 1], digest)
  {
    assert Moves(worlds[i], steps[i], worlds[i + 1], digest);
    StepKeepsInv(worlds[i], steps[i], digest);
  }

  lemma {:induction false} InvAlways(worlds: seq<World>, steps: seq<Step>, digest: Terms -> Digest, i: nat)
    requires IsRun(worlds, steps, digest) && Init(worlds[0]) && i < |worlds|
    ensures Inv(worlds[i], digest)
    decreases i
  {
    if i == 0 {
      InitHolds(worlds[0], digest);
    } else {
      InvAlways(worlds, steps, digest, i - 1);
      RunKeepsInv(worlds, steps, digest, i - 1);
    }
  }
}
