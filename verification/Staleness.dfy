/** Within one run of the coordinator what has been superseded stays superseded. */
module Staleness {
  import opened Model
  import opened Engine
  import opened Fencing
  import opened Planning
  import opened Coordination
  import opened Frames
  import opened Agents
  import opened Evidence
  import opened Protocol
  import opened ProtocolProof
  import opened Safety

  /** Records persist, grants keep contract and bindings, contracts their parties, clusters move forward. */
  predicate Continues(r: Registry, s: Registry) {
    && ClustersAdvance(r.clusters, s.clusters)
    && (forall g <- r.grants ::
          g in s.grants && s.grants[g].contract == r.grants[g].contract && s.grants[g].bindings == r.grants[g].bindings)
    && (forall c <- r.contracts :: c in s.contracts && s.contracts[c].parties == r.contracts[c].parties)
  }

  lemma ContinuesReflexive(r: Registry)
    ensures Continues(r, r)
  {
  }

  lemma ContinuesTransitive(r: Registry, s: Registry, t: Registry)
    requires Continues(r, s) && Continues(s, t)
    ensures Continues(r, t)
  {
    AdvanceTransitive(r.clusters, s.clusters, t.clusters);
  }

  lemma TameContinues(r: Registry, s: Registry)
    requires Tame(r, s)
    ensures Continues(r, s)
  {
    forall g | g in r.grants
      ensures s.grants[g].contract == r.grants[g].contract && s.grants[g].bindings == r.grants[g].bindings {
      assert GrantKept(r.grants[g], s.grants[g]);
    }
    forall c | c in r.contracts ensures s.contracts[c].parties == r.contracts[c].parties {
      assert ContractKept(r.contracts[c], s.contracts[c]);
    }
  }

  lemma AcknowledgeContinues(r: Registry, g: Uuid, side: Side)
    requires g in r.grants
    ensures Continues(r, WithGrant(r, g, Acknowledge(r.grants[g], side)))
  {
  }

  lemma CommittedContinues(
      s: Coord, conn: nat, token: Uuid, g: Uuid, attempt: Uuid, installed: bool, ids: Two<Uuid>, now: Time)
    ensures Continues(s.reg, OnCommitted(s, conn, token, g, attempt, installed, ids, now).reg)
  {
    ContinuesReflexive(s.reg);
    AbortIsTame(s, g);
    TameContinues(s.reg, Abort(s, g).reg);
    if ReplySide(s, conn, token, g, attempt).Some? && installed {
      var side := ReplySide(s, conn, token, g, attempt).value;
      var s' := s.(reg := WithGrant(s.reg, g, Acknowledge(s.reg.grants[g], side)));
      FinaliseIsTame(s', g, ids, now);
      TameContinues(s'.reg, Finalise(s', g, ids, now).coord.reg);
      AcknowledgeContinues(s.reg, g, side);
      ContinuesTransitive(s.reg, s'.reg, Finalise(s', g, ids, now).coord.reg);
    }
  }

  lemma StatusContinues(
      s: Coord, conn: nat, token: Uuid, entries: seq<StatusEntry>, plan: seq<FenceAction>, work: seq<(Uuid,
      Two<Uuid>)>, now: Time)
    ensures Continues(s.reg, OnStatusReport(s, conn, token, entries, plan, work, now).reg)
  {
    ContinuesReflexive(s.reg);
    if Authentic(s, conn, token) {
      var assessed := s.reg.(grants := AssessAll(s.reg, s.sessions[conn], entries));
      assert Continues(s.reg, assessed);
      StatusTail(s.(reg := assessed), plan, work, now);
      var t := OnStatusReport(s, conn, token, entries, plan, work, now).reg;
      TameContinues(assessed, t);
      ContinuesTransitive(s.reg, assessed, t);
    }
  }

  lemma ConsentContinues(s: Coord, conn: nat, token: Uuid, n: ConsentNotice, now: Time)
    ensures Continues(s.reg, OnConsent(s, conn, token, n, now).reg)
  {
  }

  lemma ReceiveContinues(s: Coord, conn: nat, m: Message, x: Choices)
    ensures Continues(s.reg, Receive(s, conn, m, x).reg)
  {
    if Harmless(m) {
      HarmlessIsTame(s, conn, m, x);
      TameContinues(s.reg, Receive(s, conn, m, x).reg);
    } else {
      match m
      case ConsentMessage(token, n) => ConsentContinues(s, conn, token, n, x.now);
      case CommittedMessage(token, g, attempt, installed) =>
        CommittedContinues(s, conn, token, g, attempt, installed, x.ids, x.now);
      case StatusMessage(token, entries) => StatusContinues(s, conn, token, entries, x.plan, x.work, x.now);
    }
  }

  lemma IssueContinues(s: Coord, c: Uuid, capacity: nat, id: Uuid, attempt: Uuid, now: Time)
    requires id !in s.reg.grants
    ensures Continues(s.reg, Issue(s, c, capacity, id, attempt, now).reg)
  {
    IssueRecords(s, c, capacity, id, attempt, now);
    TameReflexive(s.reg);
  }

  lemma RevalidateContinues(s: Coord, g: Uuid, attempt: Uuid, now: Time)
    ensures Continues(s.reg, Revalidate(s, g, attempt, now).reg)
  {
    RevalidateRecords(s, g, attempt, now);
    TameReflexive(s.reg);
  }

  lemma ProposeContinues(s: Coord, p: Proposal, id: Uuid, digest: Terms -> Digest, now: Time)
    requires id !in s.reg.contracts
    ensures Continues(s.reg, Propose(s, p, id, digest, now).reg)
  {
    ProposeRecords(s, p, id, digest, now);
    ContinuesReflexive(s.reg);
  }

  lemma AdministerContinues(s: Coord, a: AdminStep, digest: Terms -> Digest)
    requires (a.Proposes? ==> a.id !in s.reg.contracts) && (a.Issues? ==> a.id !in s.reg.grants)
    ensures Continues(s.reg, Administer(s, a, digest).reg)
  {
    if Routine(a) {
      RoutineIsTame(s, a, digest);
      TameContinues(s.reg, Administer(s, a, digest).reg);
    } else {
      match a
      case Proposes(p, id, now) => ProposeContinues(s, p, id, digest, now);
      case Issues(c, capacity, id, attempt, now) => IssueContinues(s, c, capacity, id, attempt, now);
      case Revalidates(g, attempt, now) => RevalidateContinues(s, g, attempt, now);
    }
  }

  lemma StepContinues(w: World, step: Step, digest: Terms -> Digest)
    requires Enabled(w, step) && !step.Restarts?
    ensures Continues(w.coord.reg, Next(w, step, digest).coord.reg)
  {
    ContinuesReflexive(w.coord.reg);
    match step
    case Delivers(conn, m, x) => ReceiveContinues(w.coord, conn, m, x);
    case Disconnected(conn) =>
      DisconnectIsTame(w.coord, conn);
      TameContinues(w.coord.reg, HandleDisconnect(w.coord, conn).reg);
    case Administers(a) => AdministerContinues(w.coord, a, digest);
    case _ =>
  }

  /** The coordinator keeps running from world `i` to world `j`. */
  predicate NoRestart(steps: seq<Step>, i: nat, j: nat) {
    forall k | i <= k < j && k < |steps| :: !steps[k].Restarts?
  }

  lemma RunStepContinues(worlds: seq<World>, steps: seq<Step>, digest: Terms -> Digest, i: nat)
    requires IsRun(worlds, steps, digest) && i < |steps| && !steps[i].Restarts?
    ensures Continues(worlds[i].coord.reg, worlds[i + 1].coord.reg)
  {
    assert Moves(worlds[i], steps[i], worlds[i + 1], digest);
    StepContinues(worlds[i], steps[i], digest);
  }

  predicate Follows(regs: seq<Registry>, k: nat) {
    k + 1 < |regs| && Continues(regs[k], regs[k + 1])
  }

  lemma {:induction false} ChainContinues(regs: seq<Registry>, i: nat, j: nat)
    requires i <= j < |regs| && forall k: nat {:trigger Follows(regs, k)} | i <= k < j :: Follows(regs, k)
    ensures Continues(regs[i], regs[j])
    decreases j - i
  {
    if i == j {
      ContinuesReflexive(regs[i]);
    } else {
      ChainContinues(regs, i, j - 1);
      assert Follows(regs, j - 1);
      ContinuesTransitive(regs[i], regs[j - 1], regs[j]);
    }
  }

  /** Any stretch of a run without a coordinator restart. */
  lemma RunContinues(worlds: seq<World>, steps: seq<Step>, digest: Terms -> Digest, i: nat, j: nat)
    requires IsRun(worlds, steps, digest) && i <= j < |worlds|
    requires NoRestart(steps, i, j)
    ensures Continues(worlds[i].coord.reg, worlds[j].coord.reg)
  {
    var regs := seq(|worlds|, k requires 0 <= k < |worlds| => worlds[k].coord.reg);
    forall k: nat | i <= k < j ensures Follows(regs, k) {
      RunStepContinues(worlds, steps, digest, k);
    }
    ChainContinues(regs, i, j);
  }

  /** The cluster has moved past the binding. */
  predicate Superseded(b: Binding, c: Cluster) {
    || b.generation < c.generation || b.policy < c.policyGeneration
    || (b.generation == c.generation && b.incarnation != c.incarnation)
  }

  /** A binding that was current once and is no longer has been superseded. */
  lemma OnceCurrent(a: Cluster, b: Cluster)
    requires Advanced(a, b) && BindingOf(a) != BindingOf(b)
    ensures Superseded(BindingOf(a), b)
  {
  }

  lemma SupersededStays(b: Binding, a: Cluster, c: Cluster)
    requires Superseded(b, a) && Advanced(a, c)
    ensures Superseded(b, c) && b != BindingOf(c)
  {
  }

  /** A grant bound on either side to what its cluster has moved past is never again accepted by `decide`
      in any continuation of the coordinator's run, whatever agents send and operators do. */
  lemma StaleForever(
      worlds: seq<World>, steps: seq<Step>, digest: Terms -> Digest, i: nat, j: nat, g: Uuid, side: Side,
      q: Query, now: Time, c: Uuid)
    requires IsRun(worlds, steps, digest) && i <= j < |worlds|
    requires NoRestart(steps, i, j)
    requires var r := worlds[i].coord.reg;
             && g in r.grants && r.grants[g].contract in r.contracts
             && var party := r.contracts[r.grants[g].contract].parties.At(side).cluster;
                party in r.clusters && Superseded(r.grants[g].bindings.At(side), r.clusters[party])
    ensures !Authorizes(worlds[j].coord.reg, q, ViewOf(worlds[j].coord, now), c, g)
  {
    var r, s := worlds[i].coord.reg, worlds[j].coord.reg;
    RunContinues(worlds, steps, digest, i, j);
    var party := r.contracts[r.grants[g].contract].parties.At(side).cluster;
    SupersededStays(r.grants[g].bindings.At(side), r.clusters[party], s.clusters[party]);
    if Authorizes(s, q, ViewOf(worlds[j].coord, now), c, g) {
      AuthorizedBinding(worlds[j].coord, q, now, c, g, side);
    }
  }

  /** In particular: once the cluster's recorded triple differs from the one a grant was issued under. */
  lemma ReplacedForever(
      worlds: seq<World>, steps: seq<Step>, digest: Terms -> Digest, i: nat, j: nat, k: nat, g: Uuid, side: Side,
      q: Query, now: Time, c: Uuid)
    requires IsRun(worlds, steps, digest) && i <= j <= k < |worlds|
    requires NoRestart(steps, i, k)
    requires var r := worlds[i].coord.reg;
             && g in r.grants && r.grants[g].contract in r.contracts
             && var party := r.contracts[r.grants[g].contract].parties.At(side).cluster;
             && party in r.clusters && party in worlds[j].coord.reg.clusters
             && r.grants[g].bindings.At(side) == BindingOf(r.clusters[party])
             && BindingOf(worlds[j].coord.reg.clusters[party]) != BindingOf(r.clusters[party])
    ensures !Authorizes(worlds[k].coord.reg, q, ViewOf(worlds[k].coord, now), c, g)
  {
    var r, s := worlds[i].coord.reg, worlds[j].coord.reg;
    RunContinues(worlds, steps, digest, i, j);
    var party := r.contracts[r.grants[g].contract].parties.At(side).cluster;
    OnceCurrent(r.clusters[party], s.clusters[party]);
    StaleForever(worlds, steps, digest, j, k, g, side, q, now, c);
  }
}
