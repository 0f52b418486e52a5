/** The agent invariant on the agent's own side, over runs of the whole protocol in which agents get the
    coordinator's own proposals: contract identities are never reused, so no proposal turns a side. */
module OwnSides {
  import opened Model
  import opened Engine
  import opened Fencing
  import opened Planning
  import opened Coordination
  import opened Frames
  import opened Agents
  import opened AgentRuns
  import opened Evidence
  import opened Protocol
  import opened ProtocolProof

  // ---- runs with the coordinator's own proposals ----

  /** The coordinator once held a contract of this identity between these parties. */
  ghost predicate Known(h: History, id: Uuid, parties: Two<Party>) {
    exists c <- h.stored :: c.id == id && c.parties == parties
  }

  /** Agents are sent proposals of contracts the coordinator holds, an agent's disk has the contracts it wrote,
      and a new contract has an identity no contract ever had. */
  ghost predicate Genuine(w: World, step: Step) {
    match step
    case AgentActs(_, e) => e.GetsProposal? ==> Known(w.history, e.contract, e.terms.parties)
    case AgentStarts(_, disk, _, _) => forall k <- disk.contracts :: Known(w.history, k, disk.contracts[k].parties)
    case Administers(a) => a.Proposes? ==> forall c <- w.history.stored :: c.id != a.id
    case _ => true
  }

  ghost predicate GenuineMove(v: World, step: Step, w: World, digest: Terms -> Digest) {
    Moves(v, step, w, digest) && Genuine(v, step)
  }

  ghost predicate IsGenuineRun(worlds: seq<World>, steps: seq<Step>, digest: Terms -> Digest) {
    && |worlds| == |steps| + 1
    && forall i {:trigger steps[i]} | 0 <= i < |steps| :: GenuineMove(worlds[i], steps[i], worlds[i + 1], digest)
  }

  lemma GenuineIsRun(worlds: seq<World>, steps: seq<Step>, digest: Terms -> Digest)
    requires IsGenuineRun(worlds, steps, digest)
    ensures IsRun(worlds, steps, digest)
  {
    forall i {:trigger steps[i]} | 0 <= i < |steps| ensures Moves(worlds[i], steps[i], worlds[i + 1], digest) {
      assert GenuineMove(worlds[i], steps[i], worlds[i + 1], digest);
    }
  }

  // ---- the invariant ----

  /** One identity, one pair of parties. */
  predicate OneMeaning(h: History) {
    forall c <- h.stored, d <- h.stored :: c.id == d.id ==> c.parties == d.parties
  }

  predicate CoordStored(r: Registry, h: History) {
    forall k <- r.contracts :: r.contracts[k].id == k && r.contracts[k] in h.stored
  }

  ghost predicate Informed(h: History, a: Agent) {
    forall k <- a.reg.contracts :: Known(h, k, a.reg.contracts[k].parties)
  }

  ghost predicate OwnInv(w: World) {
    && OneMeaning(w.history) && CoordStored(w.coord.reg, w.history)
    && forall c <- w.agents :: Informed(w.history, w.agents[c]) && Sound(w.agents[c], true)
  }

  lemma InformedStays(h: History, k: History, a: Agent)
    requires Informed(h, a) && Extends(h, k)
    ensures Informed(k, a)
  {
    forall x | x in a.reg.contracts ensures Known(k, x, a.reg.contracts[x].parties) {
      assert Known(h, x, a.reg.contracts[x].parties);
    }
  }

  // ---- agents ----

  /** Only a proposal that is taken up changes the contracts an agent knows. */
  lemma AgentContracts(a: Agent, e: AgentEvent, digest: Terms -> Digest)
    ensures var b := AgentNext(a, e, digest).agent;
            || b.reg.contracts == a.reg.contracts
            || (&& e.GetsProposal? && TakesUp(a, e.contract, e.terms)
                && b.reg.contracts
                   == a.reg.contracts[e.contract := LocalContract(a, e.contract, e.terms, digest(e.terms), e.now)])
  {
    if Shrinking(e) {
      ShrinkingStep(a, e, digest);
    } else {
      match e
      case GetsProposal(contract, t, now) => ProposalStores(a, contract, t, digest(t), now);
      case _ =>
    }
  }

  lemma StepKeepsInformed(h: History, a: Agent, e: AgentEvent, digest: Terms -> Digest)
    requires Informed(h, a) && (e.GetsProposal? ==> Known(h, e.contract, e.terms.parties))
    ensures Informed(h, AgentNext(a, e, digest).agent)
  {
    AgentContracts(a, e, digest);
    var b := AgentNext(a, e, digest).agent;
    forall k | k in b.reg.contracts ensures Known(h, k, b.reg.contracts[k].parties) {
      if k in a.reg.contracts { assert Known(h, k, a.reg.contracts[k].parties); }
    }
  }

  /** A genuine proposal of a known contract names the same parties. */
  lemma SameParties(h: History, a: Agent, e: AgentEvent)
    requires OneMeaning(h) && Informed(h, a) && e.GetsProposal? && Known(h, e.contract, e.terms.parties)
    requires e.contract in a.reg.contracts
    ensures e.terms.parties == a.reg.contracts[e.contract].parties
  {
    assert Known(h, e.contract, a.reg.contracts[e.contract].parties);
  }

  lemma GenuineKeepsSides(h: History, a: Agent, e: AgentEvent)
    requires OneMeaning(h) && Informed(h, a) && Sound(a, true)
    requires e.GetsProposal? ==> Known(h, e.contract, e.terms.parties)
    ensures KeepsSides(a, e)
  {
    if e.GetsProposal? && TakesUp(a, e.contract, e.terms) {
      forall g | g in a.reg.grants && Retained(a.reg.grants[g]) && a.reg.grants[g].contract == e.contract
        ensures a.reg.grants[g].bindings.At(OwnSide(e.terms.parties, a.cluster).value).incarnation == a.incarnation
      {
        assert GrantSound(a, g, a.reg.grants[g], true);
        SameParties(h, a, e);
      }
    }
  }

  lemma AgentStepOwn(w: World, c: Name, e: AgentEvent, digest: Terms -> Digest)
    requires AgentsOk(w) && OwnInv(w) && Enabled(w, AgentActs(c, e)) && Genuine(w, AgentActs(c, e))
    ensures OwnInv(Next(w, AgentActs(c, e), digest))
  {
    var v := Next(w, AgentActs(c, e), digest);
    var a := w.agents[c];
    assert AgentOk(w, c, a);
    StepKeepsInformed(w.history, a, e, digest);
    GenuineKeepsSides(w.history, a, e);
    StepOwnSide(a, e, digest);
    forall d | d in v.agents ensures Informed(v.history, v.agents[d]) && Sound(v.agents[d], true) {
      InformedStays(w.history, v.history, v.agents[d]);
    }
  }

  lemma AgentStartOwn(w: World, step: Step, digest: Terms -> Digest)
    requires OwnInv(w) && step.AgentStarts? && Enabled(w, step) && Genuine(w, step)
    ensures OwnInv(Next(w, step, digest))
  {
    FreshStart(step.agentConfig, step.disk, step.agentTerm, step.agentIncarnation);
    var b := Begin(step.agentConfig, step.disk, step.agentTerm, step.agentIncarnation).value;
    assert b.reg.contracts == step.disk.contracts;
  }

  // ---- the coordinator ----

  /** Contracts keep identity and parties; at most the named one is new. */
  predicate ContractsOnly(r: Registry, s: Registry, added: set<Uuid>) {
    forall k <- s.contracts ::
      if k in r.contracts
        then s.contracts[k].id == r.contracts[k].id && s.contracts[k].parties == r.contracts[k].parties
      else k in added && s.contracts[k].id == k
  }

  lemma KeptIsOnly(r: Registry, s: Registry)
    requires ContractsKept(r.contracts, s.contracts)
    ensures ContractsOnly(r, s, {})
  {
    forall k | k in s.contracts
      ensures k in r.contracts && s.contracts[k].id == r.contracts[k].id
      ensures s.contracts[k].parties == r.contracts[k].parties
    {
      assert ContractKept(r.contracts[k], s.contracts[k]);
    }
  }

  lemma CommittedContracts(
      s: Coord, conn: nat, token: Uuid, g: Uuid, attempt: Uuid, installed: bool, ids: Two<Uuid>, now: Time)
    ensures ContractsKept(s.reg.contracts, OnCommitted(s, conn, token, g, attempt, installed, ids, now).reg.contracts)
  {
    AbortIsTame(s, g);
    TameReflexive(s.reg);
    var side := ReplySide(s, conn, token, g, attempt);
    if side.Some? {
      FinaliseIsTame(s.(reg := WithGrant(s.reg, g, Acknowledge(s.reg.grants[g], side.value))), g, ids, now);
    }
  }

  lemma StatusContracts(
      s: Coord, conn: nat, token: Uuid, entries: seq<StatusEntry>, plan: seq<FenceAction>, work: seq<(Uuid,
      Two<Uuid>)>, now: Time)
    ensures ContractsKept(s.reg.contracts, OnStatusReport(s, conn, token, entries, plan, work, now).reg.contracts)
  {
    TameReflexive(s.reg);
    if Authentic(s, conn, token) {
      StatusTail(s.(reg := s.reg.(grants := AssessAll(s.reg, s.sessions[conn], entries))), plan, work, now);
    }
  }

  lemma ConsentContracts(s: Coord, conn: nat, token: Uuid, n: ConsentNotice, now: Time)
    ensures ContractsOnly(s.reg, OnConsent(s, conn, token, n, now).reg, {})
  {
  }

  lemma ReceiveContracts(s: Coord, conn: nat, m: Message, x: Choices)
    ensures ContractsOnly(s.reg, Receive(s, conn, m, x).reg, {})
  {
    var t := Receive(s, conn, m, x);
    if m.ConsentMessage? {
      ConsentContracts(s, conn, m.token, m.notice, x.now);
    } else {
      if Harmless(m) { HarmlessIsTame(s, conn, m, x); }
      if m.CommittedMessage? {
        CommittedContracts(s, conn, m.token, m.grant, m.attempt, m.installed, x.ids, x.now);
      } else if m.StatusMessage? {
        StatusContracts(s, conn, m.token, m.entries, x.plan, x.work, x.now);
      }
      KeptIsOnly(s.reg, t.reg);
    }
  }

  lemma AdministerContracts(s: Coord, a: AdminStep, digest: Terms -> Digest)
    requires a.Proposes? ==> a.id !in s.reg.contracts
    ensures ContractsOnly(s.reg, Administer(s, a, digest).reg, if a.Proposes? then {a.id} else {})
  {
    if Routine(a) {
      RoutineIsTame(s, a, digest);
      KeptIsOnly(s.reg, Administer(s, a, digest).reg);
    } else {
      match a
      case Proposes(p, id, now) => ProposeRecords(s, p, id, digest, now);
      case Issues(c, capacity, id, attempt, now) => IssueRecords(s, c, capacity, id, attempt, now);
      case Revalidates(g, attempt, now) => RevalidateRecords(s, g, attempt, now);
    }
  }

  lemma NewMeaning(w: World, s: Coord, proposals: set<Terms>, added: set<Uuid>)
    requires OneMeaning(w.history) && CoordStored(w.coord.reg, w.history) && ContractsOnly(w.coord.reg, s.reg, added)
    requires forall c <- w.history.stored :: c.id !in added
    ensures OneMeaning(CoordStep(w, s, proposals).history) && CoordStored(s.reg, CoordStep(w, s, proposals).history)
  {
    var h := CoordStep(w, s, proposals).history;
    forall c | c in h.stored && c !in w.history.stored
      ensures c.id in s.reg.contracts && s.reg.contracts[c.id] == c
      ensures c.id in added || (c.id in w.coord.reg.contracts && w.coord.reg.contracts[c.id].parties == c.parties)
    {
      var k :| k in s.reg.contracts && s.reg.contracts[k] == c;
    }
  }

  lemma CoordStepOwn(w: World, s: Coord, proposals: set<Terms>, added: set<Uuid>)
    requires OwnInv(w) && ContractsOnly(w.coord.reg, s.reg, added)
    requires forall c <- w.history.stored :: c.id !in added
    ensures OwnInv(CoordStep(w, s, proposals))
  {
    var v := CoordStep(w, s, proposals);
    NewMeaning(w, s, proposals, added);
    forall d | d in v.agents ensures Informed(v.history, v.agents[d]) && Sound(v.agents[d], true) {
      InformedStays(w.history, v.history, v.agents[d]);
    }
  }

  lemma RestartOwn(w: World, step: Step, digest: Terms -> Digest)
    requires OwnInv(w) && step.Restarts? && Enabled(w, step)
    ensures OwnInv(Next(w, step, digest))
  {
    var s := Restarted(step.recovered, step.term, step.incarnation, step.config, step.plan, step.now);
    PlanIsTame(step.recovered, CoordinatorReincarnation, step.plan, step.now);
    KeptIsOnly(step.recovered, s.reg);
    var found := w.(coord := w.coord.(reg := step.recovered));
    assert CoordStep(w, s, {}) == CoordStep(found, s, {});
    CoordStepOwn(found, s, {}, {});
  }

  lemma StepKeepsOwn(w: World, step: Step, digest: Terms -> Digest)
    requires Inv(w, digest) && OwnInv(w) && Enabled(w, step) && Genuine(w, step)
    ensures OwnInv(Next(w, step, digest))
  {
    match step
    case AgentActs(c, e) => AgentStepOwn(w, c, e, digest);
    case AgentStarts(_, _, _, _) => AgentStartOwn(w, step, digest);
    case Delivers(conn, m, x) =>
      ReceiveContracts(w.coord, conn, m, x);
      CoordStepOwn(w, Receive(w.coord, conn, m, x), {}, {});
    case Disconnected(conn) =>
      DisconnectIsTame(w.coord, conn);
      KeptIsOnly(w.coord.reg, HandleDisconnect(w.coord, conn).reg);
      CoordStepOwn(w, HandleDisconnect(w.coord, conn), {}, {});
    case Administers(a) =>
      AdministerContracts(w.coord, a, digest);
      CoordStepOwn(w, Administer(w.coord, a, digest),
                   if a.Proposes? then ProposalsOf(w.coord, a.proposal, a.now) else {},
                   if a.Proposes? then {a.id} else {});
    case Restarts(_, _, _, _, _, _) => RestartOwn(w, step, digest);
  }

  // ---- every run ----

  lemma MoveKeepsOwn(v: World, step: Step, w: World, digest: Terms -> Digest)
    requires Inv(v, digest) && OwnInv(v) && GenuineMove(v, step, w, digest)
    ensures OwnInv(w)
  {
    StepKeepsOwn(v, step, digest);
  }

  lemma RunKeepsOwn(worlds: seq<World>, steps: seq<Step>, digest: Terms -> Digest, i: nat)
    requires IsGenuineRun(worlds, steps, digest) && Init(worlds[0]) && i < |steps| && OwnInv(worlds[i])
    ensures OwnInv(worlds[i + 1])
  {
    GenuineIsRun(worlds, steps, digest);
    InvAlways(worlds, steps, digest, i);
    assert GenuineMove(worlds[i], steps[i], worlds[i + 1], digest);
    MoveKeepsOwn(worlds[i], steps[i], worlds[i + 1], digest);
  }

  lemma InitOwn(w: World)
    requires Init(w)
    ensures OwnInv(w)
  {
  }

  lemma {:induction false} OwnAlways(worlds: seq<World>, steps: seq<Step>, digest: Terms -> Digest, i: nat)
    requires IsGenuineRun(worlds, steps, digest) && Init(worlds[0]) && i < |worlds|
    ensures OwnInv(worlds[i])
    decreases i
  {
    if i == 0 {
      InitOwn(worlds[0]);
    } else {
      OwnAlways(worlds, steps, digest, i - 1);
      RunKeepsOwn(worlds, steps, digest, i - 1);
    }
  }

  /** In every such run, with delays, losses, crashes and restarts of everyone: each grant an agent holds is
      bound to the agent's running incarnation on the agent's own side of a contract it knows, and to the
      coordinator term of its last accepted handshake. */
  lemma HeldOnOwnSide(worlds: seq<World>, steps: seq<Step>, digest: Terms -> Digest, i: nat, c: Name, g: Uuid)
    requires IsGenuineRun(worlds, steps, digest) && Init(worlds[0]) && i < |worlds| && c in worlds[i].agents
    requires var a := worlds[i].agents[c]; g in a.reg.grants && Retained(a.reg.grants[g])
    ensures var a := worlds[i].agents[c];
            var held := a.reg.grants[g];
            && held.contract in a.reg.contracts && OwnSide(a.reg.contracts[held.contract].parties, c).Some?
            && held.bindings.At(OwnSide(a.reg.contracts[held.contract].parties, c).value).incarnation == a.incarnation
            && held.term == a.coordinatorTerm
  {
    GenuineIsRun(worlds, steps, digest);
    InvAlways(worlds, steps, digest, i);
    OwnAlways(worlds, steps, digest, i);
    assert AgentOk(worlds[i], c, worlds[i].agents[c]);
    assert GrantSound(worlds[i].agents[c], g, worlds[i].agents[c].reg.grants[g], true);
  }
}
