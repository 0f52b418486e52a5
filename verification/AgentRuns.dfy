/** What an agent keeps over every run, whatever messages reach it and however often it crashes. */
module AgentRuns {
  import opened Model
  import opened Coordination
  import opened Agents

  // ---- the invariant ----

  /** The grant is bound to the running incarnation: on the agent's own side, or at least on one. */
  predicate Bound(a: Agent, g: Grant, own: bool) {
    if own then
      && g.contract in a.reg.contracts && OwnSide(a.reg.contracts[g.contract].parties, a.cluster).Some?
      && g.bindings.At(OwnSide(a.reg.contracts[g.contract].parties, a.cluster).value).incarnation == a.incarnation
    else
      g.bindings.first.incarnation == a.incarnation || g.bindings.second.incarnation == a.incarnation
  }

  predicate GrantSound(a: Agent, id: Uuid, g: Grant, own: bool) {
    && g.id == id && (g.state == Prepared || g.state == GrantActive)
    && g.term == a.coordinatorTerm && Bound(a, g, own)
  }

  /** Whatever is or could become enforced belongs to this incarnation and to the term of the last
      accepted handshake. */
  predicate Sound(a: Agent, own: bool) {
    forall g <- a.reg.grants :: Retained(a.reg.grants[g]) ==> GrantSound(a, g, a.reg.grants[g], own)
  }

  // ---- steps that only take enforcement away ----

  predicate Shrinks(m: map<Uuid, Grant>, n: map<Uuid, Grant>) {
    && m.Keys == n.Keys
    && forall g <- m :: n[g] == m[g].(state := n[g].state) && (Retained(n[g]) ==> n[g].state == m[g].state)
  }

  predicate SameFooting(a: Agent, b: Agent) {
    && b.cluster == a.cluster && b.incarnation == a.incarnation && b.coordinatorTerm == a.coordinatorTerm
    && b.reg.contracts == a.reg.contracts
  }

  /** A step that takes enforcement away at most. */
  predicate Lessens(a: Agent, b: Agent) {
    SameFooting(a, b) && Shrinks(a.reg.grants, b.reg.grants)
  }

  lemma LesseningKeepsSound(a: Agent, b: Agent, own: bool)
    requires Sound(a, own) && Lessens(a, b)
    ensures Sound(b, own)
  {
    forall g | g in b.reg.grants && Retained(b.reg.grants[g]) ensures GrantSound(b, g, b.reg.grants[g], own) {
      assert GrantSound(a, g, a.reg.grants[g], own);
    }
  }

  lemma ShrinksTransitive(m: map<Uuid, Grant>, n: map<Uuid, Grant>, o: map<Uuid, Grant>)
    requires Shrinks(m, n) && Shrinks(n, o)
    ensures Shrinks(m, o)
  {
  }

  lemma PersistFrame(a: Agent, content: Digest)
    ensures Persist(a, content).Some? ==>
              Persist(a, content).value == a.(reg := a.reg.(clusters := Persist(a, content).value.reg.clusters))
  {
  }

  lemma ReevaluateShrinks(a: Agent, now: Time)
    ensures Shrinks(a.reg.grants, Reevaluate(a, now).reg.grants)
    ensures Reevaluate(a, now) == a.(reg := a.reg.(grants := Reevaluate(a, now).reg.grants))
  {
  }

  lemma FenceShrinks(a: Agent, term: nat)
    ensures Shrinks(a.reg.grants, FenceNotRevalidated(a, term).reg.grants)
  {
  }

  lemma BumpedShrinks(a: Agent)
    ensures Shrinks(FenceNotRevalidated(a.(generation := a.generation + 1), a.term).reg.grants, Bumped(a).reg.grants)
  {
  }

  lemma BumpedLessens(a: Agent)
    ensures Lessens(a, Bumped(a))
  {
    var fenced := FenceNotRevalidated(a.(generation := a.generation + 1), a.term);
    FenceShrinks(a.(generation := a.generation + 1), a.term);
    BumpedShrinks(a);
    ShrinksTransitive(a.reg.grants, fenced.reg.grants, Bumped(a).reg.grants);
  }

  lemma StateLessens(a: Agent, g: Uuid, state: GrantState)
    requires g in a.reg.grants && (state == Aborted || state == GrantFenced)
    ensures Lessens(a, SetGrantState(a, g, state))
  {
  }

  lemma FenceLessens(a: Agent, gs: seq<Uuid>)
    ensures Lessens(a, OnFence(a, gs).agent)
  {
  }

  /** What an operation of the agent's operator leaves: the connection too is as it was. */
  predicate Operated(a: Agent, b: Agent) {
    Lessens(a, b) && b.connection == a.connection
  }

  lemma PersistOperates(a: Agent, b: Agent, content: Digest)
    requires Operated(a, b)
    ensures Persist(b, content).Some? ==> Operated(a, Persist(b, content).value)
  {
    PersistFrame(b, content);
  }

  lemma ReevaluateOperates(a: Agent, b: Agent, now: Time)
    requires Operated(a, b)
    ensures Operated(a, Reevaluate(b, now))
  {
    ReevaluateShrinks(b, now);
    ShrinksTransitive(a.reg.grants, b.reg.grants, Reevaluate(b, now).reg.grants);
  }

  lemma ChangeOperates(a: Agent, b: Agent, content: Digest, now: Time)
    requires Operated(a, b)
    ensures Operated(a, AfterChange(b, content, now).agent)
  {
    PersistOperates(a, b, content);
    if Persist(b, content).Some? { ReevaluateOperates(a, Persist(b, content).value, now); }
  }

  /** A change of settings alone. */
  lemma SettingsOperate(a: Agent, b: Agent)
    requires SameFooting(a, b) && b.reg == a.reg && b.connection == a.connection
    ensures Operated(a, b)
  {
  }

  lemma SetStateOperates(a: Agent, state: ClusterState, content: Digest, now: Time)
    ensures Operated(a, SetState(a, state, content, now).agent)
  {
    SettingsOperate(a, a.(state := state));
    ChangeOperates(a, a.(state := state), content, now);
  }

  lemma SetPolicyOperates(a: Agent, generation: nat, content: Digest, now: Time)
    ensures Operated(a, SetPolicy(a, generation, content, now).agent)
  {
    SettingsOperate(a, a);
    SettingsOperate(a, a.(policyGeneration := generation));
    ChangeOperates(a, a.(policyGeneration := generation), content, now);
  }

  lemma RestoreOperates(a: Agent, content: Digest)
    ensures Operated(a, Restore(a, content).agent)
  {
    SettingsOperate(a, a.(withdrawn := false));
    PersistOperates(a, a.(withdrawn := false), content);
  }

  lemma EndpointsOperate(a: Agent, endpoints: map<Name, Endpoint>, content: Digest)
    ensures Operated(a, UpsertEndpoints(a, endpoints, content).agent)
  {
    SettingsOperate(a, a.(endpoints := endpoints));
    PersistOperates(a, a.(endpoints := endpoints), content);
  }

  lemma WithdrawOperates(a: Agent, content: Digest, now: Time)
    ensures Operated(a, Withdraw(a, content, now).agent)
  {
    var w := a.(withdrawn := true);
    SettingsOperate(a, w);
    PersistOperates(a, w, content);
    if Persist(w, content).Some? { ReevaluateOperates(a, Persist(w, content).value, now); }
  }

  lemma BumpOperates(a: Agent, content: Digest)
    ensures Operated(a, Bump(a, content).agent)
  {
    SettingsOperate(a, a);
    BumpedLessens(a);
    PersistOperates(a, Bumped(a), content);
  }

  /** The events that neither prepare, commit, propose nor shake hands. */
  predicate Shrinking(e: AgentEvent) {
    !e.GetsHelloAck? && !e.GetsProposal? && !e.GetsPrepare? && !e.GetsCommit?
  }

  /** The events by which an operator changes the agent. */
  predicate Operates(e: AgentEvent) {
    e.SetsState? || e.SetsPolicy? || e.Withdraws? || e.Restores? || e.Bumps? || e.SetsEndpoints?
  }

  lemma SettingOperates(a: Agent, e: AgentEvent, digest: Terms -> Digest)
    requires e.SetsState? || e.SetsPolicy? || e.SetsEndpoints?
    ensures Operated(a, AgentNext(a, e, digest).agent)
  {
    if e.SetsState? {
      SetStateOperates(a, e.state, e.content, e.now);
    } else if e.SetsPolicy? {
      SetPolicyOperates(a, e.generation, e.content, e.now);
    } else {
      EndpointsOperate(a, e.endpoints, e.content);
    }
  }

  lemma OperationOperates(a: Agent, e: AgentEvent, digest: Terms -> Digest)
    requires Operates(e)
    ensures Operated(a, AgentNext(a, e, digest).agent)
  {
    if e.Withdraws? {
      WithdrawOperates(a, e.content, e.now);
    } else if e.Restores? {
      RestoreOperates(a, e.content);
    } else if e.Bumps? {
      BumpOperates(a, e.content);
    } else {
      SettingOperates(a, e, digest);
    }
  }

  lemma ShrinkingStep(a: Agent, e: AgentEvent, digest: Terms -> Digest)
    requires Shrinking(e)
    ensures Lessens(a, AgentNext(a, e, digest).agent)
  {
    if Operates(e) {
      OperationOperates(a, e, digest);
    } else {
      match e
      case Ticks(now) => ReevaluateShrinks(a, now);
      case GetsAbort(g) => if g in a.reg.grants { StateLessens(a, g, Aborted); }
      case FencesLocally(g) => if g in a.reg.grants { StateLessens(a, g, GrantFenced); }
      case GetsFence(gs) => FenceLessens(a, gs);
      case _ =>
    }
  }

  // ---- every step keeps the invariant ----

  /** The agent takes a proposal up: it accepts the terms and has room for the contract. */
  predicate TakesUp(a: Agent, contract: Uuid, t: Terms) {
    Acceptable(a, t) && contract != 0 && HasRoom(a.reg.contracts, contract, MAX_CONTRACTS)
  }

  /** Terms that are taken up leave every held grant of their contract bound to this incarnation, on the side
      they give the agent. */
  predicate KeepsSides(a: Agent, e: AgentEvent) {
    e.GetsProposal? && TakesUp(a, e.contract, e.terms) ==>
      forall g <- a.reg.grants :: Retained(a.reg.grants[g]) && a.reg.grants[g].contract == e.contract ==>
        a.reg.grants[g].bindings.At(OwnSide(e.terms.parties, a.cluster).value).incarnation == a.incarnation
  }

  lemma HandshakeKeepsSound(a: Agent, ok: bool, session: Uuid, term: nat, own: bool)
    requires Sound(a, own)
    ensures Sound(OnHelloAck(a, ok, session, term).agent, own)
  {
    var b := OnHelloAck(a, ok, session, term).agent;
    forall g | g in b.reg.grants && Retained(b.reg.grants[g]) ensures GrantSound(b, g, b.reg.grants[g], own) {
      assert GrantSound(a, g, a.reg.grants[g], own);
    }
  }

  /** What a proposal stores. */
  lemma ProposalStores(a: Agent, contract: Uuid, t: Terms, digest: Digest, now: Time)
    ensures var b := OnPropose(a, contract, t, digest, now).agent;
            if TakesUp(a, contract, t)
            then b == a.(reg :=
                         a.reg.(contracts := a.reg.contracts[contract := LocalContract(a, contract, t, digest, now)]))
            else b == a
  {
  }

  lemma ProposalKeepsSound(a: Agent, contract: Uuid, t: Terms, digest: Digest, now: Time)
    requires Sound(a, false)
    ensures Sound(OnPropose(a, contract, t, digest, now).agent, false)
  {
    ProposalStores(a, contract, t, digest, now);
    var b := OnPropose(a, contract, t, digest, now).agent;
    forall g | g in b.reg.grants && Retained(b.reg.grants[g]) ensures GrantSound(b, g, b.reg.grants[g], false) {
      assert GrantSound(a, g, a.reg.grants[g], false);
    }
  }

  /** A proposal keeps the own-side form exactly when it keeps the sides of what is held. */
  lemma ProposalOwnSide(a: Agent, contract: Uuid, t: Terms, digest: Digest, now: Time)
    requires Sound(a, true)
    ensures Sound(OnPropose(a, contract, t, digest, now).agent, true) <==> KeepsSides(a, GetsProposal(contract, t, now))
  {
    ProposalStores(a, contract, t, digest, now);
    var b := OnPropose(a, contract, t, digest, now).agent;
    forall g | g in a.reg.grants && Retained(a.reg.grants[g])
      ensures GrantSound(b, g, b.reg.grants[g], true) <==>
                (TakesUp(a, contract, t) && a.reg.grants[g].contract == contract ==>
                   a.reg.grants[g].bindings.At(OwnSide(t.parties, a.cluster).value).incarnation == a.incarnation)
    {
      assert GrantSound(a, g, a.reg.grants[g], true);
    }
  }

  lemma PrepareKeepsSound(a: Agent, p: Grant, own: bool)
    requires Sound(a, own)
    ensures Sound(OnPrepare(a, p).agent, own)
  {
    var b := OnPrepare(a, p).agent;
    assert SameFooting(a, b);
    forall g | g in b.reg.grants && Retained(b.reg.grants[g]) ensures GrantSound(b, g, b.reg.grants[g], own) {
      if b.reg.grants != a.reg.grants && g == p.id {
        assert b.reg.grants[g] == p.(state := Prepared);
      } else {
        assert GrantSound(a, g, a.reg.grants[g], own);
      }
    }
  }

  lemma CommitKeepsSound(a: Agent, id: Uuid, attempt: Uuid, own: bool)
    requires Sound(a, own)
    ensures Sound(OnCommit(a, id, attempt).agent, own)
  {
    var b := OnCommit(a, id, attempt).agent;
    forall g | g in b.reg.grants && Retained(b.reg.grants[g]) ensures GrantSound(b, g, b.reg.grants[g], own) {
      assert GrantSound(a, g, a.reg.grants[g], own);
    }
  }

  lemma StepKeepsSound(a: Agent, e: AgentEvent, digest: Terms -> Digest, own: bool)
    requires Sound(a, own) && (own ==> KeepsSides(a, e))
    ensures Sound(AgentNext(a, e, digest).agent, own)
  {
    match e
    case GetsHelloAck(ok, session, term) => HandshakeKeepsSound(a, ok, session, term, own);
    case GetsProposal(contract, t, now) =>
      if own {
        ProposalOwnSide(a, contract, t, digest(t), now);
      } else {
        ProposalKeepsSound(a, contract, t, digest(t), now);
      }
    case GetsPrepare(p) => PrepareKeepsSound(a, p, own);
    case GetsCommit(id, attempt) => CommitKeepsSound(a, id, attempt, own);
    case _ =>
      ShrinkingStep(a, e, digest);
      LesseningKeepsSound(a, AgentNext(a, e, digest).agent, own);
  }

  /** Every step: the own-side form is kept exactly when no proposal turns the side of what is held. */
  lemma StepOwnSide(a: Agent, e: AgentEvent, digest: Terms -> Digest)
    requires Sound(a, true)
    ensures Sound(AgentNext(a, e, digest).agent, true) <==> KeepsSides(a, e)
  {
    if e.GetsProposal? {
      ProposalOwnSide(a, e.contract, e.terms, digest(e.terms), e.now);
    } else {
      StepKeepsSound(a, e, digest, true);
    }
  }

  /** Right after a start nothing recovered is held, so nothing is enforceable. */
  lemma FreshStart(config: AgentConfig, recovered: Registry, term: nat, incarnation: Uuid)
    requires Begin(config, recovered, term, incarnation).Some?
    ensures var a := Begin(config, recovered, term, incarnation).value;
            forall g <- a.reg.grants :: !Retained(a.reg.grants[g])
  {
  }

  // ---- runs ----

  datatype LifeStep =
    | Live(event: AgentEvent)
    | Crash(config: AgentConfig, recovered: Registry, term: nat, incarnation: Uuid)

  /** A start that is refused leaves no running agent; the state before the crash stands for it. */
  function LifeNext(a: Agent, step: LifeStep, digest: Terms -> Digest): Agent {
    match step
    case Live(e) => AgentNext(a, e, digest).agent
    case Crash(config, recovered, term, incarnation) =>
      var b := Begin(config, recovered, term, incarnation);
      if b.Some? then b.value else a
  }

  function Life(a: Agent, steps: seq<LifeStep>, digest: Terms -> Digest): Agent
    decreases |steps|
  {
    if steps == [] then a else LifeNext(Life(a, steps[..|steps| - 1], digest), steps[|steps| - 1], digest)
  }

  lemma StartIsSound(a: Agent, step: LifeStep, digest: Terms -> Digest, own: bool)
    requires Sound(a, own) && step.Crash?
    ensures Sound(LifeNext(a, step, digest), own)
  {
    if Begin(step.config, step.recovered, step.term, step.incarnation).Some? {
      FreshStart(step.config, step.recovered, step.term, step.incarnation);
    }
  }

  /** Over every run with crashes and arbitrary messages. */
  lemma {:induction false} LifeIsSound(a: Agent, steps: seq<LifeStep>, digest: Terms -> Digest)
    requires Sound(a, false)
    ensures Sound(Life(a, steps, digest), false)
    decreases |steps|
  {
    if steps != [] {
      var before, last := steps[..|steps| - 1], steps[|steps| - 1];
      LifeIsSound(a, before, digest);
      match last
      case Live(e) => StepKeepsSound(Life(a, before, digest), e, digest, false);
      case Crash(_, _, _, _) => StartIsSound(Life(a, before, digest), last, digest, false);
    }
  }

  // ---- on the agent's own side ----

  predicate SideKept(a: Agent, step: LifeStep) {
    step.Live? ==> KeepsSides(a, step.event)
  }

  predicate SidesKept(a: Agent, steps: seq<LifeStep>, digest: Terms -> Digest) {
    forall i | 0 <= i < |steps| :: SideKept(Life(a, steps[..i], digest), steps[i])
  }

  predicate OwnSideThroughout(a: Agent, steps: seq<LifeStep>, digest: Terms -> Digest) {
    forall i | 0 <= i <= |steps| :: Sound(Life(a, steps[..i], digest), true)
  }

  lemma LifeStepOwnSide(a: Agent, step: LifeStep, digest: Terms -> Digest)
    requires Sound(a, true)
    ensures Sound(LifeNext(a, step, digest), true) <==> SideKept(a, step)
  {
    match step
    case Live(e) => StepOwnSide(a, e, digest);
    case Crash(_, _, _, _) => StartIsSound(a, step, digest, true);
  }

  lemma LifeExtends(a: Agent, steps: seq<LifeStep>, digest: Terms -> Digest, i: nat)
    requires i < |steps|
    ensures Life(a, steps[..i + 1], digest) == LifeNext(Life(a, steps[..i], digest), steps[i], digest)
  {
    assert steps[..i + 1][..i] == steps[..i];
  }

  lemma {:induction false} KeptSidesAreSound(a: Agent, steps: seq<LifeStep>, digest: Terms -> Digest, i: nat)
    requires Sound(a, true) && SidesKept(a, steps, digest) && i <= |steps|
    ensures Sound(Life(a, steps[..i], digest), true)
    decreases i
  {
    if i > 0 {
      KeptSidesAreSound(a, steps, digest, i - 1);
      LifeExtends(a, steps, digest, i - 1);
      LifeStepOwnSide(Life(a, steps[..i - 1], digest), steps[i - 1], digest);
    }
  }

  /** Over every run: whatever is held is bound to the running incarnation on the agent's own side at every
      point, exactly when no proposal that was taken up turned the side of what was held. */
  lemma OwnSideExactly(a: Agent, steps: seq<LifeStep>, digest: Terms -> Digest)
    requires Sound(a, true)
    ensures OwnSideThroughout(a, steps, digest) <==> SidesKept(a, steps, digest)
  {
    if SidesKept(a, steps, digest) {
      forall i | 0 <= i <= |steps| ensures Sound(Life(a, steps[..i], digest), true) {
        KeptSidesAreSound(a, steps, digest, i);
      }
    }
    if OwnSideThroughout(a, steps, digest) {
      forall i | 0 <= i < |steps| ensures SideKept(Life(a, steps[..i], digest), steps[i]) {
        LifeExtends(a, steps, digest, i);
        LifeStepOwnSide(Life(a, steps[..i], digest), steps[i], digest);
      }
    }
  }

  // ---- enforcement takes a fresh prepare and a fresh commit ----

  ghost predicate PreparedAt(events: seq<AgentEvent>, g: Uuid, attempt: Uuid, i: nat) {
    i < |events| && events[i].GetsPrepare? && events[i].grant.id == g && events[i].grant.attempt == attempt
  }

  ghost predicate CommittedAt(events: seq<AgentEvent>, g: Uuid, attempt: Uuid, j: nat) {
    j < |events| && events[j] == GetsCommit(g, attempt)
  }

  ghost predicate Earned(events: seq<AgentEvent>, g: Uuid, attempt: Uuid, active: bool) {
    exists i: nat ::
      PreparedAt(events, g, attempt, i) && (active ==> exists j: nat :: i < j && CommittedAt(events, g, attempt, j))
  }

  function RunEvents(a: Agent, events: seq<AgentEvent>, digest: Terms -> Digest): Agent
    decreases |events|
  {
    if events == [] then a
    else AgentNext(RunEvents(a, events[..|events| - 1], digest), events[|events| - 1], digest).agent
  }

  lemma EarnedStays(events: seq<AgentEvent>, e: AgentEvent, g: Uuid, attempt: Uuid, active: bool)
    requires Earned(events, g, attempt, active)
    ensures Earned(events + [e], g, attempt, active)
  {
    var i: nat :| PreparedAt(events, g, attempt, i)
      && (active ==> exists j: nat :: i < j && CommittedAt(events, g, attempt, j));
    assert PreparedAt(events + [e], g, attempt, i);
    if active {
      var j: nat :| i < j && CommittedAt(events, g, attempt, j);
      assert CommittedAt(events + [e], g, attempt, j);
    }
  }

  lemma EarnedByCommit(events: seq<AgentEvent>, g: Uuid, attempt: Uuid)
    requires Earned(events, g, attempt, false)
    ensures Earned(events + [GetsCommit(g, attempt)], g, attempt, true)
  {
    var i: nat :| PreparedAt(events, g, attempt, i);
    var all := events + [GetsCommit(g, attempt)];
    assert PreparedAt(all, g, attempt, i) && CommittedAt(all, g, attempt, |events|);
  }

  /** A held grant was held before with the same attempt and state, or this step gave it that. */
  ghost predicate Explained(a: Agent, e: AgentEvent, g: Uuid, n: Grant) {
    || (e.GetsPrepare? && e.grant.id == g && e.grant.attempt == n.attempt && n.state == Prepared)
    || (g in a.reg.grants && Retained(a.reg.grants[g]) && a.reg.grants[g].attempt == n.attempt
        && (n.state == a.reg.grants[g].state || e == GetsCommit(g, n.attempt)))
  }

  lemma RetainedStep(a: Agent, e: AgentEvent, digest: Terms -> Digest, g: Uuid)
    requires g in AgentNext(a, e, digest).agent.reg.grants && Retained(AgentNext(a, e, digest).agent.reg.grants[g])
    ensures Explained(a, e, g, AgentNext(a, e, digest).agent.reg.grants[g])
  {
    if Shrinking(e) {
      ShrinkingStep(a, e, digest);
    } else {
      match e
      case GetsPrepare(p) => RetainedAfterPrepare(a, p, g);
      case GetsCommit(id, attempt) => RetainedAfterCommit(a, id, attempt, g);
      case GetsHelloAck(ok, session, term) => RetainedAfterHandshake(a, e, g);
      case GetsProposal(contract, t, now) => ProposalKeepsGrants(a, contract, t, digest(t), now);
    }
  }

  lemma RetainedAfterHandshake(a: Agent, e: AgentEvent, g: Uuid)
    requires e.GetsHelloAck? && var b := OnHelloAck(a, e.ok, e.session, e.term).agent;
             g in b.reg.grants && Retained(b.reg.grants[g])
    ensures Explained(a, e, g, OnHelloAck(a, e.ok, e.session, e.term).agent.reg.grants[g])
  {
  }

  lemma ProposalKeepsGrants(a: Agent, contract: Uuid, t: Terms, digest: Digest, now: Time)
    ensures OnPropose(a, contract, t, digest, now).agent.reg.grants == a.reg.grants
  {
  }

  lemma RetainedAfterPrepare(a: Agent, p: Grant, g: Uuid)
    requires g in OnPrepare(a, p).agent.reg.grants && Retained(OnPrepare(a, p).agent.reg.grants[g])
    ensures Explained(a, GetsPrepare(p), g, OnPrepare(a, p).agent.reg.grants[g])
  {
  }

  lemma RetainedAfterCommit(a: Agent, id: Uuid, attempt: Uuid, g: Uuid)
    requires g in OnCommit(a, id, attempt).agent.reg.grants && Retained(OnCommit(a, id, attempt).agent.reg.grants[g])
    ensures Explained(a, GetsCommit(id, attempt), g, OnCommit(a, id, attempt).agent.reg.grants[g])
  {
  }

  /** Every grant an agent enforces after a start was prepared and then committed, under the very same
      attempt, by messages received after that start. */
  lemma {:induction false} EnforcementIsEarned(
      config: AgentConfig, recovered: Registry, term: nat, incarnation: Uuid, events: seq<AgentEvent>,
      digest: Terms -> Digest, g: Uuid)
    requires Begin(config, recovered, term, incarnation).Some?
    ensures var a := RunEvents(Begin(config, recovered, term, incarnation).value, events, digest);
            && Sound(a, false)
            && (g in a.reg.grants && Retained(a.reg.grants[g]) ==>
                  Earned(events, g, a.reg.grants[g].attempt, a.reg.grants[g].state == GrantActive))
    decreases |events|
  {
    var start := Begin(config, recovered, term, incarnation).value;
    FreshStart(config, recovered, term, incarnation);
    if events != [] {
      var before, e := events[..|events| - 1], events[|events| - 1];
      assert events == before + [e];
      EnforcementIsEarned(config, recovered, term, incarnation, before, digest, g);
      var a, b := RunEvents(start, before, digest), RunEvents(start, events, digest);
      StepKeepsSound(a, e, digest, false);
      if g in b.reg.grants && Retained(b.reg.grants[g]) {
        var n := b.reg.grants[g];
        RetainedStep(a, e, digest, g);
        if e.GetsPrepare? && e.grant.id == g && e.grant.attempt == n.attempt && n.state == Prepared {
          assert PreparedAt(events, g, n.attempt, |before|);
        } else if n.state == a.reg.grants[g].state {
          EarnedStays(before, e, g, n.attempt, n.state == GrantActive);
        } else {
          assert GrantSound(b, g, n, false);
          EarnedWeakens(before, g, n.attempt, a.reg.grants[g].state == GrantActive);
          EarnedByCommit(before, g, n.attempt);
          EarnedWeakens(events, g, n.attempt, true);
        }
      }
    }
  }

  lemma EarnedWeakens(events: seq<AgentEvent>, g: Uuid, attempt: Uuid, active: bool)
    requires Earned(events, g, attempt, active)
    ensures Earned(events, g, attempt, false)
  {
  }

  /** An accepted prepare can be committed under its own attempt and no other; the agent then enforces that
      very grant, under its coordinator's authority exactly while the lease and the cluster allow it. */
  lemma PreparedThenCommitted(a: Agent, g: Grant, attempt: Uuid, now: Time)
    requires OnPrepare(a, g).sent == [PreparedMessage(a.session, g.id, g.attempt, true)]
    ensures var c := OnCommit(OnPrepare(a, g).agent, g.id, attempt);
            && (c.sent == [CommittedMessage(a.session, g.id, attempt, true)] <==> attempt == g.attempt)
            && g.id in c.agent.reg.grants
            && c.agent.reg.grants[g.id] == g.(state := if attempt == g.attempt then GrantActive else Prepared)
            && (Enforceable(c.agent, c.agent.reg.grants[g.id], now) <==>
                  attempt == g.attempt
                    && (a.requireCoordinator ==> now <= g.validUntil && !a.withdrawn && a.state == ClusterActive))
  {
    var p := OnPrepare(a, g).agent;
    assert p == a.(reg := WithGrant(a.reg, g.id, g.(state := Prepared)));
  }
}
