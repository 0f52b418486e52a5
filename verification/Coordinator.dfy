/** The coordinator's handlers (src/runtime/coordinator.cpp) as functions from one state to the next.
    Random identities, the clock and the order in which a fence plan lists its actions are parameters.
    Every record a handler changes is also written to the store; a refused write ends the process and
    is the restart step of the protocol. */
module Coordination {
  import opened Model
  import opened Engine
  import opened Fencing
  import opened FenceReach
  import opened Planning

  datatype Session = Session(
    cluster: Name, incarnation: Uuid, generation: nat, policyGeneration: nat, token: Uuid, connectedAt: Time)

  /** A grant flow that waits for both agents. */
  datatype Flow = Flow(targets: Two<Option<nat>>, prepared: Two<bool>, deadline: Time, attempts: nat)

  datatype Config = Config(allowRegistration: bool, flowDeadline: int, defaultLease: int)

  datatype Coord = Coord(
    reg: Registry, sessions: map<nat, Session>, pending: map<Uuid, Flow>, term: nat, incarnation: Uuid, config: Config)

  // ---- messages of an agent ----

  datatype Hello = Hello(
    cluster: Name, domain: Name, incarnation: Uuid, generation: nat, policyGeneration: nat, contentDigest: Digest)

  datatype ConsentNotice = ConsentNotice(
    contract: Uuid, endpoint: Name, termsDigest: Digest, incarnation: Uuid, generation: nat, policyGeneration: nat,
    agentTerm: nat, decision: ConsentDecision)

  datatype StatusEntry = StatusEntry(grant: Uuid, attempt: Uuid, state: GrantState)

  const NO_PROVENANCE := Provenance(SourceUnspecified, Unverified, 0, 0, 0, 0)
  const INT64_MAX := 0x7FFF_FFFF_FFFF_FFFF
  const INT64_MIN := -0x8000_0000_0000_0000

  /** `Timestamp::plus` saturates. */
  function Later(t: Time, d: int): Time {
    if d > 0 && t > INT64_MAX - d then INT64_MAX
    else if d < 0 && t < INT64_MIN - d then INT64_MIN
    else t + d
  }

  // ---- small updates ----

  function WithCluster(r: Registry, id: Name, c: Cluster): Registry {
    r.(clusters := r.clusters[id := c])
  }

  function WithContract(r: Registry, id: Uuid, c: Contract): Registry {
    r.(contracts := r.contracts[id := c])
  }

  function WithGrant(r: Registry, id: Uuid, g: Grant): Registry {
    r.(grants := r.grants[id := g])
  }

  predicate Authentic(s: Coord, conn: nat, token: Uuid) {
    conn in s.sessions && s.sessions[conn].token == token
  }

  // ---- sessions ----

  predicate Interrupts(r: Registry, cluster: Name, g: Grant) {
    (g.state == Preparing || g.state == Prepared) && Involved(r, cluster, g)
  }

  function Interrupted(r: Registry, cluster: Name): map<Uuid, Grant> {
    map g | g in r.grants ::
      if Interrupts(r, cluster, r.grants[g]) then r.grants[g].(state := GrantIndeterminate) else r.grants[g]
  }

  function Unless(target: Option<nat>, conn: nat): Option<nat> {
    if target == Some(conn) then None else target
  }

  function Detached(f: Flow, conn: nat): Flow {
    f.(targets := Two(Unless(f.targets.first, conn), Unless(f.targets.second, conn)))
  }

  /** `handle_disconnect`: flows that wait on the peer become indeterminate. */
  function HandleDisconnect(s: Coord, conn: nat): Coord {
    if conn !in s.sessions then s
    else
      s.(sessions := s.sessions - {conn},
         pending := map g | g in s.pending :: Detached(s.pending[g], conn),
         reg := s.reg.(grants := Interrupted(s.reg, s.sessions[conn].cluster)))
  }

  datatype Greeting = Greeting(reg: Registry, accepted: bool)

  /** `fence_cluster`: the plan, then one audit line for the fence as a whole. */
  function FenceCluster(r: Registry, trigger: FenceTrigger, plan: seq<FenceAction>, now: Time): Applied {
    var s := ApplyPlan(r, trigger, plan, now);
    if s.ok then Audited(s.reg, s.tally, now) else s
  }

  lemma FenceClusterParts(r: Registry, trigger: FenceTrigger, plan: seq<FenceAction>, now: Time)
    ensures var t := FenceCluster(r, trigger, plan, now).reg;
            t == ApplyPlan(r, trigger, plan, now).reg.(audit := t.audit)
  {
  }

  /** The fence is complete exactly when the trail takes the lines of its plan and the closing one. */
  lemma FenceClusterEnds(r: Registry, trigger: FenceTrigger, plan: seq<FenceAction>, now: Time)
    ensures FenceCluster(r, trigger, plan, now).ok <==> |r.audit| + |Lines(r, plan)| < MAX_AUDIT_RECORDS
  {
    RunsToEnd(r, trigger, plan, now);
  }

  function FenceAfter(r: Registry, trigger: FenceTrigger, plan: seq<FenceAction>, now: Time): Greeting {
    var s := FenceCluster(r, trigger, plan, now);
    Greeting(s.reg, s.ok)
  }

  function Registered(h: Hello): Cluster {
    Cluster(h.cluster, h.domain, h.incarnation, h.generation, h.policyGeneration, ClusterUnknown, false, map[],
            h.contentDigest, false, ClusterNotes(0, None, 0, NO_PROVENANCE, 0))
  }

  function Reincarnation(c: Cluster, h: Hello): Cluster {
    c.(incarnation := h.incarnation, generation := h.generation, contentDigest := h.contentDigest,
       generationConflict := false)
  }

  /** What a handshake does to the registry; `plan` is the fence plan made after the cluster changed. */
  function Greet(s: Coord, h: Hello, plan: seq<FenceAction>, now: Time): Greeting {
    var r := s.reg;
    if h.cluster == [] || h.domain == [] then Greeting(r, false)
    else if h.cluster !in r.clusters then
      if !s.config.allowRegistration then Greeting(r, false)
      else
        match PutCluster(r, Registered(h))
        case Success(r') => Greeting(r', true)
        case Failure(_) => Greeting(r, false)
    else
      var c := r.clusters[h.cluster];
      if c.domain != h.domain || h.generation < c.generation then Greeting(r, false)
      else if h.incarnation != c.incarnation then
        if h.generation == c.generation then Greeting(r, false)
        else FenceAfter(WithCluster(r, h.cluster, Reincarnation(c, h)), ClusterReincarnation, plan, now)
      else if h.policyGeneration < c.policyGeneration then Greeting(r, false)
      else if h.policyGeneration > c.policyGeneration then
        FenceAfter(WithCluster(r, h.cluster, c.(policyGeneration := h.policyGeneration)), PolicyGenerationChange, plan,
                   now)
      else Greeting(r, true)
  }

  /** The record a handshake stores before it fences the cluster: a new incarnation or a greater policy
      generation; none when it fences nothing. */
  function RecordToFence(r: Registry, h: Hello): Option<Cluster> {
    if h.cluster == [] || h.domain == [] || h.cluster !in r.clusters then None
    else
      var c := r.clusters[h.cluster];
      if c.domain != h.domain || h.generation < c.generation then None
      else if h.incarnation != c.incarnation then
        if h.generation == c.generation then None else Some(Reincarnation(c, h))
      else if h.policyGeneration > c.policyGeneration then Some(c.(policyGeneration := h.policyGeneration))
      else None
  }

  function OnHello(s: Coord, conn: nat, h: Hello, token: Uuid, plan: seq<FenceAction>, now: Time): Coord {
    var g := Greet(s, h, plan, now);
    s.(reg := g.reg,
       sessions := if g.accepted
                   then s.sessions[conn :=
                                   Session(h.cluster, h.incarnation, h.generation, h.policyGeneration, token, now)]
                   else s.sessions)
  }

  // ---- cluster reports ----

  /** Two contents claim one generation. */
  predicate Clashes(c: Cluster, incoming: Cluster) {
    && incoming.policyGeneration <= c.policyGeneration && incoming.generation == c.generation
    && incoming.contentDigest != 0 && c.contentDigest != 0 && incoming.contentDigest != c.contentDigest
  }

  function Accepted(c: Cluster, incoming: Cluster): Cluster {
    incoming.(domain := c.domain, generationConflict := false)
  }

  function OnReport(s: Coord, conn: nat, token: Uuid, incoming: Cluster, plan: seq<FenceAction>, now: Time): Coord {
    if !Authentic(s, conn, token) || incoming.id != s.sessions[conn].cluster || incoming.id !in s.reg.clusters then s
    else
      var c := s.reg.clusters[incoming.id];
      if incoming.generation < c.generation || incoming.incarnation != c.incarnation then s
      else if Clashes(c, incoming) then
        s.(reg := FenceCluster(WithCluster(s.reg, incoming.id, c.(generationConflict := true)), Manual, plan, now).reg,
           sessions := s.sessions[conn := s.sessions[conn].(generation := incoming.generation)])
      else if incoming.policyGeneration < c.policyGeneration then s
      else
        match PutCluster(s.reg, Accepted(c, incoming))
        case Failure(_) => s
        case Success(r) =>
          s.(reg := if incoming.policyGeneration != c.policyGeneration
                    then FenceCluster(r, PolicyGenerationChange, plan, now).reg else r,
             sessions := s.sessions[conn := s.sessions[conn].(generation := incoming.generation,
                                                               policyGeneration := incoming.policyGeneration)])
  }

  function OnWithdraw(
      s: Coord, conn: nat, token: Uuid, cluster: Name, incarnation: Uuid, generation: nat, plan: seq<FenceAction>,
      now: Time)
    : Coord
  {
    if !Authentic(s, conn, token) || cluster != s.sessions[conn].cluster || cluster !in s.reg.clusters then s
    else
      var c := s.reg.clusters[cluster];
      if incarnation != c.incarnation || generation < c.generation then s
      else s.(reg := FenceCluster(WithCluster(s.reg, cluster, c.(consentWithdrawn := true)), ClusterWithdrawal, plan,
                                  now).reg)
  }

  // ---- consent ----

  function ConsentOf(cluster: Name, m: ConsentNotice, token: Uuid, now: Time): Consent {
    Consent(cluster, m.endpoint, m.incarnation, m.generation, m.policyGeneration, m.agentTerm, m.termsDigest,
            m.decision, ConsentNotes(now, token, NoAuthenticity, []))
  }

  /** The same consent again changes nothing. */
  predicate Repeats(existing: Option<Consent>, m: ConsentNotice) {
    && existing.Some? && existing.value.decision == m.decision && existing.value.termsDigest == m.termsDigest
    && existing.value.generation == m.generation
  }

  function ConsentedState(c: Contract, decision: ConsentDecision): ContractState {
    if decision == ConsentRefused then ContractRefused
    else if c.BothConsented() then Consented
    else AwaitingConsent
  }

  function Record(c: Contract, side: Side, k: Consent, now: Time): Contract {
    var c' := c.(consents := c.consents.Set(side, Some(k)), updatedAt := now);
    c'.(state := ConsentedState(c', k.decision))
  }

  predicate ConsentFits(session: Session, c: Contract, side: Side, m: ConsentNotice) {
    && m.termsDigest == c.termsDigest && m.endpoint == c.parties.At(side).endpoint
    && m.incarnation == session.incarnation && m.generation == session.generation
  }

  function OnConsent(s: Coord, conn: nat, token: Uuid, m: ConsentNotice, now: Time): Coord {
    if !Authentic(s, conn, token) || m.contract !in s.reg.contracts then s
    else
      var session, c := s.sessions[conn], s.reg.contracts[m.contract];
      match c.SideOf(session.cluster)
      case None => s
      case Some(side) =>
        if !ConsentFits(session, c, side, m) || Repeats(c.consents.At(side), m) then s
        else
          s.(reg := WithContract(s.reg, m.contract, Record(c, side, ConsentOf(session.cluster, m, token, now), now)))
  }

  // ---- the grant flow ----

  /** The connection of the cluster's most recent session. */
  predicate IsTarget(sessions: map<nat, Session>, cluster: Name, n: nat) {
    && n in sessions && sessions[n].cluster == cluster
    && forall m <- sessions :: sessions[m].cluster == cluster ==>
         m == n || sessions[m].connectedAt < sessions[n].connectedAt
         || (sessions[m].connectedAt == sessions[n].connectedAt && m < n)
  }

  ghost function TargetFor(sessions: map<nat, Session>, cluster: Name): (target: Option<nat>)
    ensures target.Some? ==> IsTarget(sessions, cluster, target.value)
    ensures target.None? ==> forall n :: !IsTarget(sessions, cluster, n)
  {
    if n :| IsTarget(sessions, cluster, n) then Some(n) else None
  }

  predicate Open(c: Contract) {
    c.state == Consented || c.state == ContractActive
  }

  /** `prepare_grant`: needs an open contract and both agents connected. */
  ghost function Prepare(s: Coord, g: Uuid, now: Time): Coord
    requires g in s.reg.grants
  {
    var grant := s.reg.grants[g];
    if grant.contract !in s.reg.contracts || !Open(s.reg.contracts[grant.contract]) then s
    else
      var c := s.reg.contracts[grant.contract];
      var targets := Two(TargetFor(s.sessions, c.parties.first.cluster),
                         TargetFor(s.sessions, c.parties.second.cluster));
      if targets.first.None? || targets.second.None? then s
      else
        s.(reg := WithGrant(s.reg, g, grant.(state := Preparing)),
           pending := s.pending[g := Flow(targets, Two(false, false), Later(now, s.config.flowDeadline), 0)])
  }

  /** `commit_grant`: a lost peer leaves the grant indeterminate. */
  function Commit(s: Coord, g: Uuid): Coord
    requires g in s.reg.grants && g in s.pending
  {
    var flow, grant := s.pending[g], s.reg.grants[g];
    if flow.targets.first.None? || flow.targets.second.None?
    then s.(reg := WithGrant(s.reg, g, grant.(state := GrantIndeterminate)))
    else s.(reg := WithGrant(s.reg, g, grant.(state := Prepared)))
  }

  /** `abort_grant`: what is already fenced or withdrawn stays so. */
  function Abort(s: Coord, g: Uuid): Coord {
    var closed := s.(pending := s.pending - {g});
    if g !in s.reg.grants || s.reg.grants[g].state == GrantFenced || s.reg.grants[g].state == GrantWithdrawn then closed
    else closed.(reg := WithGrant(s.reg, g, s.reg.grants[g].(state := Aborted)))
  }

  datatype Reserved = Reserved(reg: Registry, ok: bool)

  predicate Fits(e: Endpoint, amount: nat) {
    amount <= e.capacity && e.reserved <= e.capacity - amount
  }

  function Raised(c: Cluster, e: Name, amount: nat): Cluster
    requires e in c.endpoints
  {
    c.(endpoints := c.endpoints[e := c.endpoints[e].(reserved := c.endpoints[e].reserved + amount)])
  }

  predicate CanReserve(r: Registry, party: Party, amount: nat) {
    && party.cluster in r.clusters && party.endpoint in r.clusters[party.cluster].endpoints
    && Fits(r.clusters[party.cluster].endpoints[party.endpoint], amount)
  }

  /** One side of `reserve_capacity`: the counter is raised before the record is stored. */
  function ReserveSide(r: Registry, grant: Uuid, amount: nat, party: Party, id: Uuid, now: Time): Reserved {
    if !CanReserve(r, party, amount) then Reserved(r, false)
    else
      var record := Reservation(id, grant, party.endpoint, party.cluster, amount, false,
                                ReservationNotes(now, 0, 0, NO_PROVENANCE));
      var stored := PutReservation(r, record).Success?;
      Reserved(r.(clusters := r.clusters[party.cluster := Raised(r.clusters[party.cluster], party.endpoint, amount)],
                  reservations := if stored then r.reservations[id := record] else r.reservations),
               stored)
  }

  /** Both sides in order; a failed second side keeps what the first reserved. */
  function Reserve(r: Registry, g: Grant, ids: Two<Uuid>, now: Time): Reserved {
    if g.contract !in r.contracts then Reserved(r, false)
    else
      var parties := r.contracts[g.contract].parties;
      var one := ReserveSide(r, g.id, g.capacity, parties.first, ids.first, now);
      if one.ok then ReserveSide(one.reg, g.id, g.capacity, parties.second, ids.second, now) else one
  }

  datatype Finalised = Finalised(coord: Coord, ok: bool)

  /** `finalise_grant`: capacity first, then the grant becomes usable. */
  function Finalise(s: Coord, g: Uuid, ids: Two<Uuid>, now: Time): Finalised {
    if g !in s.reg.grants then Finalised(s, false)
    else
      var grant := s.reg.grants[g];
      if grant.Usable() then Finalised(s, true)
      else if !grant.BothAcknowledged() then Finalised(s, false)
      else
        var reserved := Reserve(s.reg, grant, ids, now);
        if !reserved.ok then Finalised(Abort(s.(reg := reserved.reg), g), false)
        else
          Finalised(s.(reg := WithGrant(reserved.reg, g, grant.(state := Committed)), pending := s.pending - {g}), true)
  }

  /** The reply belongs to the attempt, and to the incarnation and generation the grant is bound to. */
  predicate ReplyFits(session: Session, g: Grant, side: Side, attempt: Uuid) {
    && attempt == g.attempt && g.bindings.At(side).incarnation == session.incarnation
    && g.bindings.At(side).generation == session.generation
  }

  /** The side of the grant a reply on this connection speaks for, if it is acceptable. */
  function ReplySide(s: Coord, conn: nat, token: Uuid, g: Uuid, attempt: Uuid): Option<Side> {
    if !Authentic(s, conn, token) || g !in s.reg.grants then None
    else
      var grant := s.reg.grants[g];
      if grant.contract !in s.reg.contracts then None
      else
        match s.reg.contracts[grant.contract].SideOf(s.sessions[conn].cluster)
        case None => None
        case Some(side) => if ReplyFits(s.sessions[conn], grant, side, attempt) then Some(side) else None
  }

  function OnPrepared(s: Coord, conn: nat, token: Uuid, g: Uuid, attempt: Uuid, accepted: bool): Coord {
    match ReplySide(s, conn, token, g, attempt)
    case None => s
    case Some(side) =>
      if s.reg.grants[g].state != Preparing && s.reg.grants[g].state != Prepared then s
      else if !accepted then Abort(s, g)
      else if g !in s.pending then s
      else
        var flow := s.pending[g].(prepared := s.pending[g].prepared.Set(side, true));
        var s' := s.(pending := s.pending[g := flow]);
        if flow.prepared.first && flow.prepared.second then Commit(s', g) else s'
  }

  function Acknowledge(g: Grant, side: Side): Grant {
    g.(acknowledged := g.acknowledged.Set(side, true))
  }

  /** `on_grant_committed` does not look at the grant's state. */
  function OnCommitted(
      s: Coord, conn: nat, token: Uuid, g: Uuid, attempt: Uuid, installed: bool, ids: Two<Uuid>, now: Time)
    : Coord
  {
    match ReplySide(s, conn, token, g, attempt)
    case None => s
    case Some(side) =>
      if !installed then Abort(s, g)
      else
        var s' := s.(reg := WithGrant(s.reg, g, Acknowledge(s.reg.grants[g], side)));
        if s'.reg.grants[g].BothAcknowledged() then Finalise(s', g, ids, now).coord else s'
  }

  function OnAborted(s: Coord, conn: nat, token: Uuid, g: Uuid): Coord {
    if Authentic(s, conn, token) then Abort(s, g) else s
  }

  // ---- status exchange ----

  predicate Enforcing(state: GrantState) { state == Committed || state == GrantActive }

  /** The first entry that names the grant. */
  function Reported(entries: seq<StatusEntry>, g: Uuid): (e: Option<StatusEntry>)
    ensures e.Some? ==> e.value in entries && e.value.grant == g
  {
    if entries == [] then None
    else if entries[0].grant == g then Some(entries[0])
    else Reported(entries[1..], g)
  }

  datatype Assessment = Untouched | Acknowledged(side: Side) | MustFence | Lost

  /** What the report says about one grant of the reporting cluster. */
  function Assess(r: Registry, session: Session, entries: seq<StatusEntry>, g: Grant): Assessment {
    if g.contract !in r.contracts then Untouched
    else
      match r.contracts[g.contract].SideOf(session.cluster)
      case None => Untouched
      case Some(side) =>
        var e := Reported(entries, g.id);
        if e.Some? && Enforcing(e.value.state) then
          if ReplyFits(session, g, side, e.value.attempt) then Acknowledged(side) else MustFence
        else if g.Usable() then Lost
        else Untouched
  }

  function Assessed(g: Grant, a: Assessment): Grant {
    match a
    case Acknowledged(side) => Acknowledge(g, side)
    case Lost => g.(state := GrantIndeterminate)
    case _ => g
  }

  function AssessAll(r: Registry, session: Session, entries: seq<StatusEntry>): map<Uuid, Grant> {
    map g | g in r.grants :: Assessed(r.grants[g], Assess(r, session, entries, r.grants[g]))
  }

  /** The grants a report withdraws. */
  function ToFence(r: Registry, session: Session, entries: seq<StatusEntry>): set<Uuid> {
    set g | g in r.grants && (var a := Assess(r, session, entries, r.grants[g]); a == MustFence || a == Lost)
  }

  /** Grants to make usable, in order, each with the identities of its two reservations. */
  function FinaliseAll(s: Coord, work: seq<(Uuid, Two<Uuid>)>, now: Time): Coord
    decreases |work|
  {
    if work == [] then s
    else if work[0].0 !in s.reg.grants || s.reg.grants[work[0].0].state != GrantIndeterminate
            || !s.reg.grants[work[0].0].BothAcknowledged()
      then FinaliseAll(s, work[1..], now)
    else
      var f := Finalise(s, work[0].0, work[0].1, now);
      if f.ok then FinaliseAll(f.coord, work[1..], now) else f.coord
  }

  /** `on_status_report`: `plan` withdraws `ToFence`, `work` lists the grants in iteration order. */
  function OnStatusReport(
      s: Coord, conn: nat, token: Uuid, entries: seq<StatusEntry>, plan: seq<FenceAction>, work: seq<(Uuid, Two<Uuid>)>,
      now: Time)
    : Coord
  {
    if !Authentic(s, conn, token) then s
    else
      var assessed := s.reg.(grants := AssessAll(s.reg, s.sessions[conn], entries));
      var fenced := ApplyPlan(assessed, GrantRevocation, plan, now);
      var s' := s.(reg := fenced.reg);
      if fenced.ok then FinaliseAll(s', work, now) else s'
  }

  // ---- the clock ----

  predicate LeaseOver(g: Grant, now: Time) { g.Usable() && now > g.validUntil }

  function Expiring(r: Registry, now: Time): set<Uuid> {
    set g | g in r.grants && LeaseOver(r.grants[g], now)
  }

  function MarkExpired(grants: map<Uuid, Grant>, expired: set<Uuid>): map<Uuid, Grant> {
    map g | g in grants :: if g in expired then grants[g].(state := GrantExpired) else grants[g]
  }

  /** `expire_grants`: `plan` withdraws the expired grants; its failure is ignored. */
  function ExpireGrants(s: Coord, plan: seq<FenceAction>, now: Time): Coord {
    var fenced := ApplyPlan(s.reg, GrantExpiry, plan, now).reg;
    s.(reg := fenced.(grants := MarkExpired(fenced.grants, Expiring(s.reg, now))))
  }

  predicate TimedOut(f: Flow, now: Time) {
    now > f.deadline || f.attempts >= MAX_REVALIDATE_ATTEMPTS
  }

  ghost function Reconnected(s: Coord, g: Uuid, side: Side, target: Option<nat>): Option<nat> {
    if target.Some? || g !in s.reg.grants || s.reg.grants[g].contract !in s.reg.contracts then target
    else TargetFor(s.sessions, s.reg.contracts[s.reg.grants[g].contract].parties.At(side).cluster)
  }

  ghost function Retried(s: Coord, g: Uuid, f: Flow): Flow {
    f.(targets := Two(Reconnected(s, g, First, f.targets.first), Reconnected(s, g, Second, f.targets.second)),
       attempts := f.attempts + 1)
  }

  predicate Abandoned(s: Coord, g: Uuid, now: Time) {
    g in s.pending && TimedOut(s.pending[g], now)
  }

  function AbortTimedOut(s: Coord, now: Time): map<Uuid, Grant> {
    map g | g in s.reg.grants ::
      if Abandoned(s, g, now) && s.reg.grants[g].state != GrantFenced && s.reg.grants[g].state != GrantWithdrawn
      then s.reg.grants[g].(state := Aborted) else s.reg.grants[g]
  }

  /** `retry_pending_flows`. */
  ghost function RetryPending(s: Coord, now: Time): Coord {
    s.(reg := s.reg.(grants := AbortTimedOut(s, now)),
       pending := map g | g in s.pending && !TimedOut(s.pending[g], now) :: Retried(s, g, s.pending[g]))
  }

  // ---- administration ----

  datatype Proposal = Proposal(clusters: Two<Name>, endpoints: Two<Name>, capacity: nat, lease: int)

  function BindingOf(c: Cluster): Binding {
    Binding(c.incarnation, c.generation, c.policyGeneration)
  }

  /** The terms `apply_contract_proposal` composes from the registry. */
  function ProposedTerms(s: Coord, p: Proposal, now: Time): Terms
    requires p.clusters.first in s.reg.clusters && p.clusters.second in s.reg.clusters
  {
    var a, b := s.reg.clusters[p.clusters.first], s.reg.clusters[p.clusters.second];
    Terms(Two(Party(p.clusters.first, p.endpoints.first, a.domain),
              Party(p.clusters.second, p.endpoints.second, b.domain)),
          if p.capacity == 0 then 1 else p.capacity,
          if p.lease == 0 then s.config.defaultLease else p.lease,
          Two(BindingOf(a), BindingOf(b)), now)
  }

  function ContractOf(id: Uuid, t: Terms, digest: Digest, now: Time): Contract {
    Contract(id, t.parties, t.capacity, t.leaseDuration, digest, Proposed, Two(None, None), now,
             ContractNotes(now, 0, NO_PROVENANCE))
  }

  function Propose(s: Coord, p: Proposal, id: Uuid, digest: Terms -> Digest, now: Time): Coord {
    if p.clusters.first !in s.reg.clusters || p.clusters.second !in s.reg.clusters then s
    else
      var t := ProposedTerms(s, p, now);
      if t.Validate() != Ok then s
      else
        match PutContract(s.reg, ContractOf(id, t, digest(t), now))
        case Success(r) => s.(reg := r)
        case Failure(_) => s
  }

  lemma ProposeRecords(s: Coord, p: Proposal, id: Uuid, digest: Terms -> Digest, now: Time)
    ensures var t := Propose(s, p, id, digest, now);
            || t == s
            || (&& p.clusters.first in s.reg.clusters && p.clusters.second in s.reg.clusters
                && var terms := ProposedTerms(s, p, now);
                   terms.Validate() == Ok
                     && t == s.(reg := WithContract(s.reg, id, ContractOf(id, terms, digest(terms), now))))
  {
  }

  function NewGrant(s: Coord, id: Uuid, attempt: Uuid, c: Uuid, capacity: nat, now: Time): Grant
    requires c in s.reg.contracts
    requires s.reg.contracts[c].parties.first.cluster in s.reg.clusters
    requires s.reg.contracts[c].parties.second.cluster in s.reg.clusters
  {
    var k := s.reg.contracts[c];
    Grant(id, c, k.termsDigest, s.term, s.incarnation, attempt,
          Two(BindingOf(s.reg.clusters[k.parties.first.cluster]), BindingOf(s.reg.clusters[k.parties.second.cluster])),
          if capacity == 0 then k.capacity
            else capacity, now, Later(now, k.leaseDuration), Preparing, Two(false, false),
          GrantNotes(Two(0, 0), 0, [], 0, NO_PROVENANCE))
  }

  /** `apply_grant_issue`. */
  ghost function Issue(s: Coord, c: Uuid, capacity: nat, id: Uuid, attempt: Uuid, now: Time): Coord {
    if c !in s.reg.contracts || !Open(s.reg.contracts[c]) then s
    else
      var k := s.reg.contracts[c];
      if capacity > k.capacity || k.parties.first.cluster !in s.reg.clusters
        || k.parties.second.cluster !in s.reg.clusters
      then s
      else
        match PutGrant(s.reg, NewGrant(s, id, attempt, c, capacity, now))
        case Success(r) => Prepare(s.(reg := r), id, now)
        case Failure(_) => s
  }

  /** The attempt changes before the contract is looked up. */
  function Renewed(s: Coord, g: Grant, attempt: Uuid, now: Time): Grant {
    var renewed := g.(attempt := attempt, term := s.term, coordinator := s.incarnation, issuedAt := now);
    if g.contract !in s.reg.contracts then renewed
    else
      renewed.(validUntil := Later(now, s.reg.contracts[g.contract].leaseDuration), acknowledged := Two(false, false),
               state := Preparing)
  }

  /** `apply_grant_revalidation`. */
  ghost function Revalidate(s: Coord, g: Uuid, attempt: Uuid, now: Time): Coord {
    if g !in s.reg.grants || s.reg.grants[g].state == GrantFenced then s
    else
      var s' := s.(reg := WithGrant(s.reg, g, Renewed(s, s.reg.grants[g], attempt, now)));
      if s.reg.grants[g].contract in s.reg.contracts then Prepare(s', g, now) else s'
  }

  /** Preparing a grant that already is in that state only opens the flow. */
  lemma PrepareLeavesRecords(s: Coord, g: Uuid, now: Time)
    requires g in s.reg.grants && s.reg.grants[g].state == Preparing
    ensures Prepare(s, g, now) == s.(pending := Prepare(s, g, now).pending)
  {
    assert s.reg.grants[g := s.reg.grants[g].(state := Preparing)] == s.reg.grants;
  }

  lemma IssueRecords(s: Coord, c: Uuid, capacity: nat, id: Uuid, attempt: Uuid, now: Time)
    ensures var t := Issue(s, c, capacity, id, attempt, now);
            || t == s
            || (&& c in s.reg.contracts && s.reg.contracts[c].parties.first.cluster in s.reg.clusters
                && s.reg.contracts[c].parties.second.cluster in s.reg.clusters
                && t == s.(reg := WithGrant(s.reg, id, NewGrant(s, id, attempt, c, capacity, now)),
                           pending := t.pending))
  {
    var t := Issue(s, c, capacity, id, attempt, now);
    if t != s {
      var n := NewGrant(s, id, attempt, c, capacity, now);
      assert PutGrant(s.reg, n) == Success(WithGrant(s.reg, id, n));
      PrepareLeavesRecords(s.(reg := WithGrant(s.reg, id, n)), id, now);
    }
  }

  lemma RevalidateRecords(s: Coord, g: Uuid, attempt: Uuid, now: Time)
    ensures var t := Revalidate(s, g, attempt, now);
            if g !in s.reg.grants || s.reg.grants[g].state == GrantFenced then t == s
            else t == s.(reg := WithGrant(s.reg, g, Renewed(s, s.reg.grants[g], attempt, now)), pending := t.pending)
  {
    if g in s.reg.grants && s.reg.grants[g].contract in s.reg.contracts {
      PrepareLeavesRecords(s.(reg := WithGrant(s.reg, g, Renewed(s, s.reg.grants[g], attempt, now))), g, now);
    }
  }

  function ConsentChange(s: Coord, cluster: Name, withdraw: bool, plan: seq<FenceAction>, now: Time): Coord {
    if cluster !in s.reg.clusters then s
    else
      var r := WithCluster(s.reg, cluster, s.reg.clusters[cluster].(consentWithdrawn := withdraw));
      s.(reg := if withdraw then FenceCluster(r, ClusterWithdrawal, plan, now).reg else r)
  }

  function ResolveConflict(s: Coord, cluster: Name, generation: nat, plan: seq<FenceAction>, now: Time): Coord {
    if cluster !in s.reg.clusters then s
    else
      var c := s.reg.clusters[cluster];
      if !c.generationConflict || generation <= c.generation then s
      else
        s.(reg := FenceCluster(WithCluster(s.reg, cluster, c.(generationConflict := false, generation := generation)),
                               Manual, plan, now).reg)
  }

  function SetClusterState(s: Coord, cluster: Name, state: ClusterState, plan: seq<FenceAction>, now: Time): Coord {
    if cluster !in s.reg.clusters then s
    else
      var r := WithCluster(s.reg, cluster, s.reg.clusters[cluster].(state := state));
      s.(reg := if state == ClusterRetired then FenceCluster(r, Manual, plan, now).reg else r)
  }

  /** The `FenceGrant` action, and the fences a changed policy rule causes. */
  function FenceBy(s: Coord, trigger: FenceTrigger, plan: seq<FenceAction>, now: Time): Coord {
    s.(reg := ApplyPlan(s.reg, trigger, plan, now).reg)
  }

  /** Edits of links, paths and policy rules. */
  function EditTopology(
      s: Coord, links: map<Name, Link>, paths: map<Name, Path>, policies: map<Name, PolicyRule>)
    : Coord
  {
    s.(reg := s.reg.(links := links, paths := paths, policies := policies))
  }

  // ---- restart ----

  /** `begin_incarnation`: nothing but the recovered registry survives, and that is fenced first. */
  function Restarted(
      recovered: Registry, term: nat, incarnation: Uuid, config: Config, plan: seq<FenceAction>, now: Time)
    : Coord
  {
    Coord(ApplyPlan(recovered, CoordinatorReincarnation, plan, now).reg, map[], map[], term, incarnation, config)
  }

  /** The plan that withdraws a set of grants and what they hold. */
  ghost predicate IsRevocationPlan(r: Registry, grants: set<Uuid>, actions: seq<FenceAction>) {
    && (forall a :: a in actions <==>
          match a
          case FenceGrant(g) => g in grants
          case ReleaseReservation(k) =>
            k in r.reservations && !r.reservations[k].released && r.reservations[k].grant in grants
          case FenceContract(_) => false)
    && GrantsLead(r, actions)
  }
}
