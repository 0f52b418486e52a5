/** How long a grant flow waits for its agents (`retry_pending_flows` of src/runtime/coordinator.cpp). */
module FlowRuns {
  import opened Model
  import opened Engine
  import opened Fencing
  import opened Planning
  import opened Coordination
  import opened Effects
  import opened Agents
  import opened Protocol
  import opened LedgerRuns

  // ---- one retry ----

  /** The most recent session of the cluster; of two opened at once the later connection. */
  predicate Newest(sessions: map<nat, Session>, cluster: Name, n: nat) {
    && n in sessions && sessions[n].cluster == cluster
    && forall m <- sessions :: sessions[m].cluster == cluster ==>
         sessions[m].connectedAt < sessions[n].connectedAt
           || (sessions[m].connectedAt == sessions[n].connectedAt && m <= n)
  }

  predicate Connected(sessions: map<nat, Session>, cluster: Name) {
    exists n <- sessions :: sessions[n].cluster == cluster
  }

  /** The connection found for a cluster is its newest session, and there is none only when it has no session. */
  lemma TargetIsNewest(sessions: map<nat, Session>, cluster: Name)
    ensures TargetFor(sessions, cluster).Some? <==> Connected(sessions, cluster)
    ensures TargetFor(sessions, cluster).Some? ==> Newest(sessions, cluster, TargetFor(sessions, cluster).value)
  {
    if Connected(sessions, cluster) {
      var n :| n in sessions && sessions[n].cluster == cluster;
      TargetExists(sessions, cluster, n);
    }
  }

  /** The cluster on this side of the flow's contract. */
  function PartyOf(r: Registry, g: Uuid, side: Side): Option<Name> {
    if g in r.grants && r.grants[g].contract in r.contracts
    then Some(r.contracts[r.grants[g].contract].parties.At(side).cluster) else None
  }

  /** A target that was there stays; one that was missing is the newest session of its party, if it has one. */
  ghost predicate TargetKept(s: Coord, g: Uuid, side: Side, was: Option<nat>, now: Option<nat>) {
    if was.Some? then now == was
    else
      var party := PartyOf(s.reg, g, side);
      if party.Some? && Connected(s.sessions, party.value) then now.Some? && Newest(s.sessions, party.value, now.value)
      else now == None
  }

  /** A flow in time goes on with one more attempt, and its grant is as it was. */
  lemma RetryGoesOn(s: Coord, now: Time, g: Uuid)
    requires g in s.pending && now <= s.pending[g].deadline && s.pending[g].attempts < 64
    ensures var t := RetryPending(s, now);
            && g in t.pending
            && t.pending[g] == s.pending[g].(targets := t.pending[g].targets, attempts := s.pending[g].attempts + 1)
            && TargetKept(s, g, First, s.pending[g].targets.first, t.pending[g].targets.first)
            && TargetKept(s, g, Second, s.pending[g].targets.second, t.pending[g].targets.second)
            && (g in t.reg.grants <==> g in s.reg.grants) && (g in s.reg.grants ==> t.reg.grants[g] == s.reg.grants[g])
  {
    RetryTarget(s, g, First, s.pending[g].targets.first);
    RetryTarget(s, g, Second, s.pending[g].targets.second);
  }

  lemma RetryTarget(s: Coord, g: Uuid, side: Side, was: Option<nat>)
    ensures TargetKept(s, g, side, was, Reconnected(s, g, side, was))
  {
    if PartyOf(s.reg, g, side).Some? { TargetIsNewest(s.sessions, PartyOf(s.reg, g, side).value); }
  }

  /** Any other flow is closed, and its grant aborted unless it was fenced or withdrawn. */
  lemma RetryGivesUp(s: Coord, now: Time, g: Uuid)
    requires g in s.pending && (now > s.pending[g].deadline || s.pending[g].attempts >= 64)
    ensures var t := RetryPending(s, now);
            && g !in t.pending && (g in t.reg.grants <==> g in s.reg.grants)
            && (g in s.reg.grants ==>
                  t.reg.grants[g] == if s.reg.grants[g].state == GrantFenced || s.reg.grants[g].state == GrantWithdrawn
                                     then s.reg.grants[g] else s.reg.grants[g].(state := Aborted))
  {
  }

  /** A retry opens no flow and touches nothing else. */
  lemma RetryLeavesRest(s: Coord, now: Time)
    ensures var t := RetryPending(s, now);
            && t == s.(reg := s.reg.(grants := t.reg.grants), pending := t.pending)
            && t.pending.Keys <= s.pending.Keys && t.reg.grants.Keys == s.reg.grants.Keys
            && forall g <- s.reg.grants :: g !in s.pending ==> t.reg.grants[g] == s.reg.grants[g]
  {
  }

  // ---- a flow's beginning ----

  /** A flow begins unprepared, with no attempt made, both newest sessions as its targets and the configured
      time ahead of it. */
  lemma FlowBegins(s: Coord, g: Uuid, now: Time)
    requires g in s.reg.grants && Prepare(s, g, now) != s
    requires INT64_MIN <= now + s.config.flowDeadline <= INT64_MAX
    ensures PartyOf(s.reg, g, First).Some? && PartyOf(s.reg, g, Second).Some?
    ensures var t := Prepare(s, g, now);
            && g in t.pending && t.pending == s.pending[g := t.pending[g]]
            && t.pending[g].prepared == Two(false, false) && t.pending[g].attempts == 0
            && t.pending[g].deadline == now + s.config.flowDeadline
            && t.pending[g].targets.first.Some? && t.pending[g].targets.second.Some?
            && Newest(s.sessions, PartyOf(s.reg, g, First).value, t.pending[g].targets.first.value)
            && Newest(s.sessions, PartyOf(s.reg, g, Second).value, t.pending[g].targets.second.value)
  {
    TargetIsNewest(s.sessions, PartyOf(s.reg, g, First).value);
    TargetIsNewest(s.sessions, PartyOf(s.reg, g, Second).value);
  }

  // ---- runs ----

  predicate Opens(step: LedgerStep, g: Uuid) {
    step.Runs? && ((step.admin.Issues? && step.admin.id == g) || (step.admin.Revalidates? && step.admin.grant == g))
  }

  predicate IsRetry(step: LedgerStep) { step.Runs? && step.admin.Retries? }

  /** No flow for the grant begins, and one that is still there is as old as before. */
  predicate Ages(s: Coord, t: Coord, g: Uuid, more: nat) {
    g in t.pending ==>
      && g in s.pending && t.pending[g].deadline == s.pending[g].deadline
      && t.pending[g].attempts == s.pending[g].attempts + more
  }

  lemma FinaliseAges(s: Coord, id: Uuid, ids: Two<Uuid>, now: Time, g: Uuid)
    ensures Ages(s, Finalise(s, id, ids, now).coord, g, 0)
  {
  }

  lemma {:induction false} FinaliseAllAges(s: Coord, work: seq<(Uuid, Two<Uuid>)>, now: Time, g: Uuid)
    ensures Ages(s, FinaliseAll(s, work, now), g, 0)
    decreases |work|
  {
    if work != [] {
      var f := Finalise(s, work[0].0, work[0].1, now);
      FinaliseAges(s, work[0].0, work[0].1, now, g);
      FinaliseAllAges(s, work[1..], now, g);
      FinaliseAllAges(f.coord, work[1..], now, g);
    }
  }

  lemma StatusAges(s: Coord, conn: nat, token: Uuid, entries: seq<StatusEntry>, x: Choices, g: Uuid)
    ensures Ages(s, OnStatusReport(s, conn, token, entries, x.plan, x.work, x.now), g, 0)
  {
    if Authentic(s, conn, token) {
      var assessed := s.reg.(grants := AssessAll(s.reg, s.sessions[conn], entries));
      var t := s.(reg := ApplyPlan(assessed, GrantRevocation, x.plan, x.now).reg);
      FinaliseAllAges(t, x.work, x.now, g);
    }
  }

  lemma ReceiveAges(s: Coord, conn: nat, m: Message, x: Choices, g: Uuid)
    ensures Ages(s, Receive(s, conn, m, x), g, 0)
  {
    match m
    case StatusMessage(token, entries) => StatusAges(s, conn, token, entries, x, g);
    case CommittedMessage(token, id, attempt, installed) => CommittedAges(s, conn, token, id, attempt, installed, x, g);
    case PreparedMessage(token, id, attempt, accepted) => PreparedAges(s, conn, token, id, attempt, accepted, g);
    case _ =>
  }

  lemma PreparedAges(s: Coord, conn: nat, token: Uuid, id: Uuid, attempt: Uuid, accepted: bool, g: Uuid)
    ensures Ages(s, OnPrepared(s, conn, token, id, attempt, accepted), g, 0)
  {
  }

  lemma CommittedAges(
      s: Coord, conn: nat, token: Uuid, id: Uuid, attempt: Uuid, installed: bool, x: Choices, g: Uuid)
    ensures Ages(s, OnCommitted(s, conn, token, id, attempt, installed, x.ids, x.now), g, 0)
  {
    if ReplySide(s, conn, token, id, attempt).Some? && installed {
      var side := ReplySide(s, conn, token, id, attempt).value;
      FinaliseAges(s.(reg := WithGrant(s.reg, id, Acknowledge(s.reg.grants[id], side))), id, x.ids, x.now, g);
    }
  }

  lemma StepAges(s: Coord, step: LedgerStep, digest: Terms -> Digest, g: Uuid)
    requires !Opens(step, g)
    ensures Ages(s, LedgerNext(s, step, digest), g, if IsRetry(step) then 1 else 0)
  {
    match step
    case Receives(conn, m, x) => ReceiveAges(s, conn, m, x, g);
    case _ =>
  }

  /** One step, that opens no flow for the grant. */
  ghost predicate Turn(s: Coord, t: Coord, step: LedgerStep, digest: Terms -> Digest, g: Uuid) {
    t == LedgerNext(s, step, digest) && !Opens(step, g)
  }

  /** A stretch of a run in which no flow for the grant is opened. */
  ghost predicate Unopened(states: seq<Coord>, steps: seq<LedgerStep>, digest: Terms -> Digest, g: Uuid) {
    && |states| == |steps| + 1
    && forall i: nat {:trigger steps[i]} | i < |steps| :: Turn(states[i], states[i + 1], steps[i], digest, g)
  }

  lemma TurnAges(s: Coord, t: Coord, step: LedgerStep, digest: Terms -> Digest, g: Uuid)
    requires Turn(s, t, step, digest, g)
    ensures Ages(s, t, g, if IsRetry(step) then 1 else 0)
    ensures IsRetry(step) && g in t.pending ==> s.pending[g].attempts < 64 && step.admin.now <= s.pending[g].deadline
  {
    StepAges(s, step, digest, g);
    if IsRetry(step) && g in s.pending && (step.admin.now > s.pending[g].deadline || s.pending[g].attempts >= 64) {
      RetryGivesUp(s, step.admin.now, g);
    }
  }

  /** The retries among the first `n` steps. */
  function Retried(steps: seq<LedgerStep>, n: nat): nat
    requires n <= |steps|
  {
    if n == 0 then 0 else Retried(steps, n - 1) + if IsRetry(steps[n - 1]) then 1 else 0
  }

  /** Whatever else happens, a flow that is still open has been through every retry, none of them too many. */
  lemma {:induction false} EachRetryCounts(
      states: seq<Coord>, steps: seq<LedgerStep>, digest: Terms -> Digest, g: Uuid, n: nat)
    requires Unopened(states, steps, digest, g) && n <= |steps|
    ensures Ages(states[0], states[n], g, Retried(steps, n))
    ensures g in states[n].pending && Retried(steps, n) > 0 ==> states[n].pending[g].attempts <= 64
    decreases n
  {
    if n > 0 {
      EachRetryCounts(states, steps, digest, g, n - 1);
      TurnAges(states[n - 1], states[n], steps[n - 1], digest, g);
    }
  }

  /** Sixty-five retries end every flow. */
  lemma FlowEnds(states: seq<Coord>, steps: seq<LedgerStep>, digest: Terms -> Digest, g: Uuid)
    requires Unopened(states, steps, digest, g) && Retried(steps, |steps|) >= 65
    ensures g !in states[|steps|].pending
  {
    EachRetryCounts(states, steps, digest, g, |steps|);
  }

  /** A closed flow stays closed. */
  lemma {:induction false} ClosedStays(
      states: seq<Coord>, steps: seq<LedgerStep>, digest: Terms -> Digest, g: Uuid, i: nat, n: nat)
    requires Unopened(states, steps, digest, g) && i <= n <= |steps| && g !in states[i].pending
    ensures g !in states[n].pending
    decreases n
  {
    if i < n {
      ClosedStays(states, steps, digest, g, i, n - 1);
      TurnAges(states[n - 1], states[n], steps[n - 1], digest, g);
    }
  }

  /** One retry after its deadline ends a flow, too. */
  lemma OverdueEnds(states: seq<Coord>, steps: seq<LedgerStep>, digest: Terms -> Digest, g: Uuid, i: nat)
    requires Unopened(states, steps, digest, g) && i < |steps| && IsRetry(steps[i])
    requires g in states[0].pending && steps[i].admin.now > states[0].pending[g].deadline
    ensures g !in states[|steps|].pending
  {
    EachRetryCounts(states, steps, digest, g, i);
    TurnAges(states[i], states[i + 1], steps[i], digest, g);
    ClosedStays(states, steps, digest, g, i + 1, |steps|);
  }

  /** After a retry no open flow is overdue. */
  lemma NoneOverdue(s: Coord, now: Time, g: Uuid)
    requires g in RetryPending(s, now).pending
    ensures RetryPending(s, now).pending[g].deadline >= now && 0 < RetryPending(s, now).pending[g].attempts <= 64
  {
    if now > s.pending[g].deadline || s.pending[g].attempts >= 64 {
      RetryGivesUp(s, now, g);
    } else {
      RetryGoesOn(s, now, g);
    }
  }
}
