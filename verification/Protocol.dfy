/** The whole protocol: one coordinator, any number of agents and a network that may delay, lose and
    repeat what agents send.  Agents may receive anything at any time, so what the coordinator sends is
    not recorded.  Any process may stop and start again from its store. */
module Protocol {
  import opened Model
  import opened Engine
  import opened Fencing
  import opened FenceReach
  import opened Planning
  import opened Coordination
  import opened Frames
  import opened Agents
  import opened AgentRuns
  import opened Evidence

  /** `conns` names the process at the far end of every connection ever opened; `net` holds everything
      ever sent on it. */
  datatype World = World(
    coord: Coord, agents: map<Name, Agent>, conns: map<nat, Peer>, net: set<(nat, Message)>, history: History)

  /** What a handler takes from its surroundings: fresh identities, plan order, the clock. */
  datatype Choices = Choices(
    token: Uuid, plan: seq<FenceAction>, work: seq<(Uuid, Two<Uuid>)>, ids: Two<Uuid>, now: Time)

  datatype AdminStep =
    | Expires(plan: seq<FenceAction>, now: Time)
    | Retries(now: Time)
    | Proposes(proposal: Proposal, id: Uuid, now: Time)
    | Issues(contract: Uuid, capacity: nat, id: Uuid, attempt: Uuid, now: Time)
    | Revalidates(grant: Uuid, attempt: Uuid, now: Time)
    | ChangesConsent(cluster: Name, withdraw: bool, plan: seq<FenceAction>, now: Time)
    | Resolves(cluster: Name, generation: nat, plan: seq<FenceAction>, now: Time)
    | SetsClusterState(cluster: Name, state: ClusterState, plan: seq<FenceAction>, now: Time)
    | Fences(trigger: FenceTrigger, plan: seq<FenceAction>, now: Time)
    | EditsTopology(links: map<Name, Link>, paths: map<Name, Path>, policies: map<Name, PolicyRule>)

  datatype Step =
    | AgentActs(cluster: Name, event: AgentEvent)
    | AgentStarts(agentConfig: AgentConfig, disk: Registry, agentTerm: nat, agentIncarnation: Uuid)
    | Delivers(conn: nat, message: Message, choices: Choices)
    | Disconnected(conn: nat)
    | Administers(step: AdminStep)
    | Restarts(recovered: Registry, term: nat, incarnation: Uuid, config: Config, plan: seq<FenceAction>, now: Time)

  // ---- the coordinator's part ----

  function Receive(s: Coord, conn: nat, m: Message, x: Choices): Coord {
    match m
    case HelloMessage(h) => OnHello(s, conn, h, x.token, x.plan, x.now)
    case ReportMessage(token, record) => OnReport(s, conn, token, record, x.plan, x.now)
    case ConsentMessage(token, n) => OnConsent(s, conn, token, n, x.now)
    case PreparedMessage(token, g, attempt, accepted) => OnPrepared(s, conn, token, g, attempt, accepted)
    case CommittedMessage(token, g, attempt, installed) =>
      OnCommitted(s, conn, token, g, attempt, installed, x.ids, x.now)
    case AbortedMessage(token, g) => OnAborted(s, conn, token, g)
    case WithdrawMessage(token, c, incarnation, generation) =>
      OnWithdraw(s, conn, token, c, incarnation, generation, x.plan, x.now)
    case StatusMessage(token, entries) => OnStatusReport(s, conn, token, entries, x.plan, x.work, x.now)
  }

  ghost function Administer(s: Coord, a: AdminStep, digest: Terms -> Digest): Coord {
    match a
    case Expires(plan, now) => ExpireGrants(s, plan, now)
    case Retries(now) => RetryPending(s, now)
    case Proposes(p, id, now) => Propose(s, p, id, digest, now)
    case Issues(c, capacity, id, attempt, now) => Issue(s, c, capacity, id, attempt, now)
    case Revalidates(g, attempt, now) => Revalidate(s, g, attempt, now)
    case ChangesConsent(c, withdraw, plan, now) => ConsentChange(s, c, withdraw, plan, now)
    case Resolves(c, generation, plan, now) => ResolveConflict(s, c, generation, plan, now)
    case SetsClusterState(c, state, plan, now) => SetClusterState(s, c, state, plan, now)
    case Fences(trigger, plan, now) => FenceBy(s, trigger, plan, now)
    case EditsTopology(links, paths, policies) => EditTopology(s, links, paths, policies)
  }

  // ---- one step of the world ----

  /** Random identities are fresh, connections are new, and a restart finds contracts it once wrote. */
  ghost predicate Enabled(w: World, step: Step) {
    match step
    case AgentActs(c, e) => c in w.agents && (e.Connects? ==> e.conn !in w.conns)
    case AgentStarts(config, disk, term, incarnation) => Begin(config, disk, term, incarnation).Some?
    case Delivers(conn, m, _) => (conn, m) in w.net
    case Disconnected(_) => true
    case Administers(a) =>
      && (a.Proposes? ==> UnusedContract(w.coord.reg, a.id))
      && (a.Issues? ==> a.id !in w.coord.reg.grants)
    case Restarts(recovered, term, incarnation, config, plan, now) =>
      && (forall c <- recovered.contracts ::
          recovered.contracts[c].id == c && recovered.contracts[c] in w.history.stored)
      && (forall g <- recovered.grants :: recovered.grants[g].id == g && recovered.grants[g].coordinator != incarnation)
      && IsRecoveryPlan(recovered, plan) && HasTrailRoom(recovered, plan)
  }

  function ActiveNow(a: Agent): set<Activation> {
    set g | g in a.reg.grants && a.reg.grants[g].state == GrantActive ::
      Activation(a.cluster, a.incarnation, g, a.reg.grants[g].attempt)
  }

  /** Terms the agent accepts: stored locally and answered. */
  function AcceptedNow(a: Agent, e: AgentEvent, reply: Reply): set<Acceptance> {
    if e.GetsProposal? && Acceptable(a, e.terms) && reply.sent != [] then {Acceptance(a.cluster, e.terms)} else {}
  }

  function Sent(a: Agent, messages: seq<Message>): set<(nat, Message)> {
    if a.connection.None? then {} else set m | m in messages :: (a.connection.value, m)
  }

  function AgentStep(w: World, a: Agent, e: AgentEvent, digest: Terms -> Digest): World {
    var reply := AgentNext(a, e, digest);
    w.(agents := w.agents[a.cluster := reply.agent],
       conns := if e.Connects? then w.conns[e.conn := Peer(a.cluster, a.incarnation)] else w.conns,
       net := w.net + Sent(reply.agent, reply.sent),
       history := w.history.(activations := w.history.activations + ActiveNow(reply.agent),
                             acceptances := w.history.acceptances + AcceptedNow(a, e, reply)))
  }

  function Contracts(r: Registry): set<Contract> {
    set c | c in r.contracts :: r.contracts[c]
  }

  /** The coordinator moves to `s`; what its registry now holds may be found on disk later. */
  function CoordStep(w: World, s: Coord, proposals: set<Terms>): World {
    w.(coord := s,
       history := w.history.(stored := w.history.stored + Contracts(s.reg),
                             proposals := w.history.proposals + proposals))
  }

  ghost function Next(w: World, step: Step, digest: Terms -> Digest): World
    requires Enabled(w, step)
  {
    match step
    case AgentActs(c, e) => AgentStep(w, w.agents[c], e, digest)
    case AgentStarts(config, disk, term, incarnation) =>
      w.(agents := w.agents[config.cluster := Begin(config, disk, term, incarnation).value])
    case Delivers(conn, m, x) => CoordStep(w, Receive(w.coord, conn, m, x), {})
    case Disconnected(conn) => CoordStep(w, HandleDisconnect(w.coord, conn), {})
    case Administers(a) =>
      CoordStep(w, Administer(w.coord, a, digest), if a.Proposes? then ProposalsOf(w.coord, a.proposal, a.now) else {})
    case Restarts(recovered, term, incarnation, config, plan, now) =>
      CoordStep(w, Restarted(recovered, term, incarnation, config, plan, now), {})
  }

  // ---- the invariant ----

  predicate AgentOk(w: World, c: Name, a: Agent) {
    && a.cluster == c && Sound(a, false) && ActiveNow(a) <= w.history.activations
    && (a.connection.Some? ==> a.connection.value in w.conns && w.conns[a.connection.value] == Peer(c, a.incarnation))
  }

  ghost predicate PacketOk(w: World, digest: Terms -> Digest, conn: nat, m: Message) {
    conn in w.conns && Honest(w.history, digest, w.conns[conn], m)
  }

  predicate SessionsOk(s: Coord, conns: map<nat, Peer>) {
    forall n <- s.sessions :: n in conns && SessionFits(s, n, conns[n])
  }

  predicate AgentsOk(w: World) {
    forall c <- w.agents :: AgentOk(w, c, w.agents[c])
  }

  ghost predicate NetOk(w: World, digest: Terms -> Digest) {
    forall conn, m :: (conn, m) in w.net ==> PacketOk(w, digest, conn, m)
  }

  ghost predicate CoordOk(s: Coord, conns: map<nat, Peer>, h: History, digest: Terms -> Digest) {
    && SessionsOk(s, conns) && GrantsBacked(s.reg, s.incarnation, h) && ContractsBacked(s.reg, h, digest)
    && StoredBacked(h, digest)
  }

  ghost predicate Inv(w: World, digest: Terms -> Digest) {
    AgentsOk(w) && NetOk(w, digest) && CoordOk(w.coord, w.conns, w.history, digest)
  }

  /** A first start: no agents, no connections, an empty registry. */
  predicate Init(w: World) {
    && w.agents == map[] && w.conns == map[] && w.net == {} && w.history == History({}, {}, {}, {})
    && w.coord.sessions == map[] && w.coord.reg == EMPTY_REGISTRY
  }
}
