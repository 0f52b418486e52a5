/** A cluster agent (src/runtime/agent.cpp): consents for its cluster and enforces grants.
    Handlers are functions from one state to the next and to the messages sent; the messages an agent
    receives are arbitrary, so nothing here relies on the coordinator being honest. */
module Agents {
  import opened Model
  import opened Coordination

  datatype Agent = Agent(
    cluster: Name, domain: Name, requireCoordinator: bool, incarnation: Uuid, generation: nat, policyGeneration: nat,
    state: ClusterState, withdrawn: bool, term: nat, coordinatorTerm: nat, session: Uuid, connection: Option<nat>,
    joined: bool, endpoints: map<Name, Endpoint>, reg: Registry)

  datatype Message =
    | HelloMessage(hello: Hello)
    | ReportMessage(token: Uuid, record: Cluster)
    | ConsentMessage(token: Uuid, notice: ConsentNotice)
    | PreparedMessage(token: Uuid, grant: Uuid, attempt: Uuid, accepted: bool)
    | CommittedMessage(token: Uuid, grant: Uuid, attempt: Uuid, installed: bool)
    | AbortedMessage(token: Uuid, grant: Uuid)
    | WithdrawMessage(token: Uuid, cluster: Name, incarnation: Uuid, generation: nat)
    | StatusMessage(token: Uuid, entries: seq<StatusEntry>)

  datatype Reply = Reply(agent: Agent, sent: seq<Message>)

  /** The slot of this cluster: the last one that names it. */
  function OwnSide(parties: Two<Party>, cluster: Name): Option<Side> {
    if parties.second.cluster == cluster then Some(Second)
    else if parties.first.cluster == cluster then Some(First)
    else None
  }

  predicate HoldsBinding(a: Agent, b: Binding) {
    b == Binding(a.incarnation, a.generation, a.policyGeneration)
  }

  /** `local_cluster()->endpoints`. */
  function LocalEndpoints(a: Agent): map<Name, Endpoint> {
    if a.cluster in a.reg.clusters then a.reg.clusters[a.cluster].endpoints else map[]
  }

  // ---- the states of local grants ----

  /** Everything that is or could become enforced. */
  predicate Retained(g: Grant) {
    g.state == Prepared || g.state == GrantActive || g.state == Committed || g.state == GrantIndeterminate
  }

  function WithStates(a: Agent, f: Grant -> GrantState): Agent {
    a.(reg := a.reg.(grants := map g | g in a.reg.grants :: a.reg.grants[g].(state := f(a.reg.grants[g]))))
  }

  /** `fence_not_revalidated`. */
  function FenceNotRevalidated(a: Agent, term: nat): Agent {
    WithStates(a, (g: Grant) => if Retained(g) && g.term != term then GrantFenced else g.state)
  }

  /** `grant_enforceable`. */
  predicate Enforceable(a: Agent, g: Grant, now: Time) {
    && g.state == GrantActive
    && (a.requireCoordinator ==>
          && g.contract in a.reg.contracts
          && OwnSide(a.reg.contracts[g.contract].parties, a.cluster).Some?
          && HoldsBinding(a, g.bindings.At(OwnSide(a.reg.contracts[g.contract].parties, a.cluster).value))
          && g.term == a.coordinatorTerm && now <= g.validUntil && !a.withdrawn && a.state == ClusterActive)
  }

  /** One turn of `reevaluate_enforcement`; a Committed grant is never enforceable, so none becomes Active here. */
  function Reevaluated(a: Agent, g: Grant, now: Time): GrantState {
    if g.state != GrantActive && g.state != Committed then g.state
    else if now > g.validUntil then GrantExpired
    else if g.state == Committed && Enforceable(a, g, now) then GrantActive
    else if g.state == GrantActive && !Enforceable(a, g, now) then GrantFenced
    else g.state
  }

  function Reevaluate(a: Agent, now: Time): Agent {
    WithStates(a, (g: Grant) => Reevaluated(a, g, now))
  }

  // ---- the local cluster record ----

  function LocalRecord(a: Agent, contentDigest: Digest): Cluster {
    Cluster(a.cluster, a.domain, a.incarnation, a.generation, a.policyGeneration, a.state, a.withdrawn,
            map e | e in a.endpoints :: a.endpoints[e].(cluster := a.cluster, policyGeneration := a.policyGeneration),
            contentDigest, false, ClusterNotes(0, None, 0, NO_PROVENANCE, 0))
  }

  /** `persist_cluster`; None when the record is refused. */
  function Persist(a: Agent, contentDigest: Digest): Option<Agent> {
    match PutCluster(a.reg, LocalRecord(a, contentDigest))
    case Success(r) => Some(a.(reg := r))
    case Failure(_) => None
  }

  function Report(a: Agent): seq<Message> {
    if a.cluster in a.reg.clusters then [ReportMessage(a.session, a.reg.clusters[a.cluster])] else []
  }

  function ReportIfJoined(a: Agent): Reply {
    Reply(a, if a.joined then Report(a) else [])
  }

  // ---- messages from the coordinator ----

  function OnHelloAck(a: Agent, ok: bool, session: Uuid, term: nat): Reply {
    if !ok then Reply(a.(connection := None, joined := false), [])
    else
      var joined := FenceNotRevalidated(a.(session := session, coordinatorTerm := term, joined := true), term);
      Reply(joined, Report(joined))
  }

  /** Every condition `on_propose_contract` puts on accepting terms. */
  predicate Acceptable(a: Agent, t: Terms) {
    && OwnSide(t.parties, a.cluster).Some?
    && var side := OwnSide(t.parties, a.cluster).value;
    && HoldsBinding(a, t.bindings.At(side))
    && !a.withdrawn && a.state == ClusterActive
    && t.parties.At(side).endpoint in LocalEndpoints(a)
    && var e := LocalEndpoints(a)[t.parties.At(side).endpoint];
    && e.interClusterAllowed && e.state == EndpointActive
    && t.Validate() == Ok
  }

  function Notice(a: Agent, contract: Uuid, t: Terms, digest: Digest): ConsentNotice {
    var side := OwnSide(t.parties, a.cluster);
    ConsentNotice(contract, if side.Some? then t.parties.At(side.value).endpoint else [], digest, a.incarnation,
                  a.generation,
                  a.policyGeneration, a.term, if Acceptable(a, t) then ConsentAccepted else ConsentRefused)
  }

  /** The local record of an accepted contract; what the other side said earlier is kept. */
  function LocalContract(a: Agent, contract: Uuid, t: Terms, digest: Digest, now: Time): Contract
    requires OwnSide(t.parties, a.cluster).Some?
  {
    var earlier := if contract in a.reg.contracts then a.reg.contracts[contract].consents else Two(None, None);
    var consent := ConsentOf(a.cluster, Notice(a, contract, t, digest), a.session, now);
    Contract(contract, t.parties, t.capacity, t.leaseDuration, digest, AwaitingConsent,
             earlier.Set(OwnSide(t.parties, a.cluster).value, Some(consent)), now, ContractNotes(now, 0, NO_PROVENANCE))
  }

  /** `on_propose_contract`: acceptance is stored before it is sent. */
  function OnPropose(a: Agent, contract: Uuid, t: Terms, digest: Digest, now: Time): Reply {
    var notice := ConsentMessage(a.session, Notice(a, contract, t, digest));
    if !Acceptable(a, t) then Reply(a, [notice])
    else
      match PutContract(a.reg, LocalContract(a, contract, t, digest, now))
      case Success(r) => Reply(a.(reg := r), [notice])
      case Failure(_) => Reply(a, [])
  }

  /** The conditions of `on_prepare_grant`. */
  predicate Preparable(a: Agent, g: Grant) {
    && g.contract in a.reg.contracts
    && var c := a.reg.contracts[g.contract];
    && OwnSide(c.parties, a.cluster).Some?
    && var side := OwnSide(c.parties, a.cluster).value;
    && c.consents.At(side).Some? && c.consents.At(side).value.decision == ConsentAccepted
    && c.consents.At(side).value.termsDigest == g.termsDigest && c.termsDigest == g.termsDigest
    && HoldsBinding(a, g.bindings.At(side)) && g.term == a.coordinatorTerm
    && c.parties.At(side).endpoint in LocalEndpoints(a)
    && g.capacity <= LocalEndpoints(a)[c.parties.At(side).endpoint].capacity
  }

  function OnPrepare(a: Agent, g: Grant): Reply {
    if !Preparable(a, g) then Reply(a, [PreparedMessage(a.session, g.id, g.attempt, false)])
    else
      match PutGrant(a.reg, g.(state := Prepared))
      case Success(r) => Reply(a.(reg := r), [PreparedMessage(a.session, g.id, g.attempt, true)])
      case Failure(_) => Reply(a, [PreparedMessage(a.session, g.id, g.attempt, false)])
  }

  predicate Committable(a: Agent, g: Uuid, attempt: Uuid) {
    && g in a.reg.grants && a.reg.grants[g].attempt == attempt
    && (a.reg.grants[g].state == Prepared || a.reg.grants[g].state == GrantActive)
  }

  function SetGrantState(a: Agent, g: Uuid, state: GrantState): Agent
    requires g in a.reg.grants
  {
    a.(reg := WithGrant(a.reg, g, a.reg.grants[g].(state := state)))
  }

  /** `on_commit_grant`: the prepared attempt, and no other, becomes enforced. */
  function OnCommit(a: Agent, g: Uuid, attempt: Uuid): Reply {
    if Committable(a, g, attempt)
    then Reply(SetGrantState(a, g, GrantActive), [CommittedMessage(a.session, g, attempt, true)])
    else Reply(a, [CommittedMessage(a.session, g, attempt, false)])
  }

  function OnAbort(a: Agent, g: Uuid): Reply {
    Reply(if g in a.reg.grants then SetGrantState(a, g, Aborted) else a, [AbortedMessage(a.session, g)])
  }

  /** The acknowledgement of a fence carries nothing the coordinator acts on. */
  function OnFence(a: Agent, gs: seq<Uuid>): Reply {
    Reply(a.(reg := a.reg.(grants := map g | g in a.reg.grants ::
                             if g in gs then a.reg.grants[g].(state := GrantFenced) else a.reg.grants[g])), [])
  }

  function Entry(g: Grant): StatusEntry { StatusEntry(g.id, g.attempt, g.state) }

  /** A report lists the recorded grants, in some order and up to the bound. */
  predicate ListsGrants(a: Agent, entries: seq<StatusEntry>) {
    forall i | 0 <= i < |entries| :: exists g <- a.reg.grants :: entries[i] == Entry(a.reg.grants[g])
  }

  // ---- local operations ----

  function AfterChange(a: Agent, contentDigest: Digest, now: Time): Reply {
    match Persist(a, contentDigest)
    case None => Reply(a, [])
    case Some(p) => ReportIfJoined(Reevaluate(p, now))
  }

  function SetState(a: Agent, state: ClusterState, contentDigest: Digest, now: Time): Reply {
    AfterChange(a.(state := state), contentDigest, now)
  }

  function SetPolicy(a: Agent, generation: nat, contentDigest: Digest, now: Time): Reply {
    if generation < a.policyGeneration then Reply(a, [])
    else AfterChange(a.(policyGeneration := generation), contentDigest, now)
  }

  function Withdraw(a: Agent, contentDigest: Digest, now: Time): Reply {
    var w := a.(withdrawn := true);
    match Persist(w, contentDigest)
    case None => Reply(w, [])
    case Some(p) =>
      Reply(Reevaluate(p, now),
            if a.joined then [WithdrawMessage(a.session, a.cluster, a.incarnation, a.generation)] else [])
  }

  function Restore(a: Agent, contentDigest: Digest): Reply {
    var w := a.(withdrawn := false);
    match Persist(w, contentDigest)
    case None => Reply(w, [])
    case Some(p) => Reply(p, [])
  }

  /** `bump_generation` passes its own term, not the coordinator's, to `fence_not_revalidated`. */
  function Bumped(a: Agent): Agent {
    WithStates(FenceNotRevalidated(a.(generation := a.generation + 1), a.term),
               (g: Grant) => if g.state == GrantActive || g.state == Committed then GrantFenced else g.state)
  }

  function Bump(a: Agent, contentDigest: Digest): Reply {
    if a.generation >= MAX_GENERATION then Reply(a, [])
    else
      match Persist(Bumped(a), contentDigest)
      case None => Reply(Bumped(a), [])
      case Some(p) => ReportIfJoined(p)
  }

  function UpsertEndpoints(a: Agent, endpoints: map<Name, Endpoint>, contentDigest: Digest): Reply {
    match Persist(a.(endpoints := endpoints), contentDigest)
    case None => Reply(a.(endpoints := endpoints), [])
    case Some(p) => ReportIfJoined(p)
  }

  function Connect(a: Agent, conn: nat): Reply {
    Reply(a.(connection := Some(conn), joined := false),
          [HelloMessage(Hello(a.cluster, a.domain, a.incarnation, a.generation, a.policyGeneration,
                              if a.cluster in a.reg.clusters then a.reg.clusters[a.cluster].contentDigest else 0))])
  }

  // ---- restart ----

  datatype AgentConfig = AgentConfig(
    cluster: Name, domain: Name, requireCoordinator: bool, generation: nat, policyGeneration: nat, state: ClusterState,
    endpoints: map<Name, Endpoint>)

  /** A generation the record on disk has not used, when there is one left. */
  function StartGeneration(config: AgentConfig, recovered: Registry): nat {
    if config.cluster in recovered.clusters && config.generation == recovered.clusters[config.cluster].generation
       && config.generation < MAX_GENERATION
    then config.generation + 1 else config.generation
  }

  /** `begin_incarnation`: recovered enforcement is fenced; None when the configuration is behind the disk. */
  function Begin(config: AgentConfig, recovered: Registry, term: nat, incarnation: Uuid): Option<Agent> {
    var known := config.cluster in recovered.clusters;
    if known && config.generation < recovered.clusters[config.cluster].generation then None
    else
      var previous := if known then recovered.clusters[config.cluster] else Registered(Hello([], [], 0, 0, 0, 0));
      var a := Agent(
        config.cluster, config.domain, config.requireCoordinator, incarnation, StartGeneration(config, recovered),
        if config.policyGeneration < previous.policyGeneration then previous.policyGeneration
          else config.policyGeneration,
        if previous.state == ClusterUnknown then config.state else previous.state,
        previous.consentWithdrawn, term, 0, 0, None, false, config.endpoints, recovered);
      Some(WithStates(a, (g: Grant) => if Retained(g) || g.state == Preparing then GrantFenced else g.state))
  }

  // ---- one step of an agent ----

  datatype AgentEvent =
    | Connects(conn: nat)
    | Disconnects
    | GetsHelloAck(ok: bool, session: Uuid, term: nat)
    | GetsProposal(contract: Uuid, terms: Terms, now: Time)
    | GetsPrepare(grant: Grant)
    | GetsCommit(id: Uuid, attempt: Uuid)
    | GetsAbort(id: Uuid)
    | GetsFence(ids: seq<Uuid>)
    | GetsStatusRequest(entries: seq<StatusEntry>)
    | Ticks(now: Time)
    | SetsState(state: ClusterState, content: Digest, now: Time)
    | SetsPolicy(generation: nat, content: Digest, now: Time)
    | Withdraws(content: Digest, now: Time)
    | Restores(content: Digest)
    | Bumps(content: Digest)
    | FencesLocally(id: Uuid)
    | SetsEndpoints(endpoints: map<Name, Endpoint>, content: Digest)

  function AgentNext(a: Agent, e: AgentEvent, digest: Terms -> Digest): Reply {
    match e
    case Connects(conn) => Connect(a, conn)
    case Disconnects => Reply(a.(connection := None, joined := false), [])
    case GetsHelloAck(ok, session, term) => OnHelloAck(a, ok, session, term)
    case GetsProposal(contract, t, now) => OnPropose(a, contract, t, digest(t), now)
    case GetsPrepare(g) => OnPrepare(a, g)
    case GetsCommit(g, attempt) => OnCommit(a, g, attempt)
    case GetsAbort(g) => OnAbort(a, g)
    case GetsFence(gs) => OnFence(a, gs)
    case GetsStatusRequest(entries) =>
      Reply(a, if ListsGrants(a, entries) then [StatusMessage(a.session, entries)] else [])
    case Ticks(now) => Reply(Reevaluate(a, now), [])
    case SetsState(state, content, now) => SetState(a, state, content, now)
    case SetsPolicy(generation, content, now) => SetPolicy(a, generation, content, now)
    case Withdraws(content, now) => Withdraw(a, content, now)
    case Restores(content) => Restore(a, content)
    case Bumps(content) => Bump(a, content)
    case FencesLocally(g) => Reply(if g in a.reg.grants then SetGrantState(a, g, GrantFenced) else a, [])
    case SetsEndpoints(endpoints, content) => UpsertEndpoints(a, endpoints, content)
  }
}
