/** A run in which an agent's held grant ends up bound to the other cluster's incarnation on the agent's own
    side: the agent of cluster [1] starts, joins, accepts a contract as its first party, prepares and
    commits a grant, and then accepts the same contract with the parties the other way round. */
module SwappedParties {
  import opened Model
  import opened Coordination
  import opened Agents
  import opened AgentRuns

  const HERE := Party([1], [5], [3])
  const THERE := Party([2], [6], [4])
  const OURS := Binding(7, 1, 1)
  const THEIRS := Binding(8, 1, 1)
  const ENDPOINT := Endpoint([5], [1], 10, 0, 1, EndpointActive, true, false, EndpointNotes([], NO_PROVENANCE))
  const CONFIG := AgentConfig([1], [3], true, 1, 1, ClusterActive, map[[5] := ENDPOINT])
  const FIRST := Terms(Two(HERE, THERE), 1, 0, Two(OURS, THEIRS), 0)
  const SWAPPED := Terms(Two(THERE, HERE), 1, 0, Two(THEIRS, OURS), 0)
  const RECORD := Cluster([1], [3], 7, 1, 1, ClusterActive, false, map[[5] := ENDPOINT], 0, false,
                          ClusterNotes(0, None, 0, NO_PROVENANCE, 0))
  const STARTED :=
    Agent([1], [3], true, 7, 1, 1, ClusterActive, false, 1, 0, 0, None, false, map[[5] := ENDPOINT], EMPTY_REGISTRY)
  const ACTIVE := STARTED.(reg := EMPTY_REGISTRY.(clusters := map[[1] := RECORD]))
  const JOINED := ACTIVE.(session := 4, coordinatorTerm := 1, joined := true)

  function Offer(digest: Terms -> Digest): Grant {
    Grant(6, 9, digest(FIRST), 1, 1, 2, FIRST.bindings, 1, 0, 100, Preparing, Two(false, false),
          GrantNotes(Two(0, 0), 0, [], 0, NO_PROVENANCE))
  }

  function Consenting(digest: Terms -> Digest): Agent {
    JOINED.(reg := JOINED.reg.(contracts := map[9 := LocalContract(JOINED, 9, FIRST, digest(FIRST), 0)]))
  }

  function Holding(digest: Terms -> Digest, state: GrantState): Agent {
    Consenting(digest).(reg := Consenting(digest).reg.(grants := map[6 := Offer(digest).(state := state)]))
  }

  lemma Starts()
    ensures Begin(CONFIG, EMPTY_REGISTRY, 1, 7) == Some(STARTED)
  {
  }

  lemma Activates(digest: Terms -> Digest)
    ensures AgentNext(STARTED, SetsState(ClusterActive, 0, 0), digest).agent == ACTIVE
  {
    assert LocalRecord(STARTED, 0).endpoints == map[[5] := ENDPOINT];
    assert PutCluster(EMPTY_REGISTRY, RECORD) == Success(ACTIVE.reg);
  }

  lemma Joins(digest: Terms -> Digest)
    ensures AgentNext(ACTIVE, GetsHelloAck(true, 4, 1), digest).agent == JOINED
  {
  }

  lemma Consents(digest: Terms -> Digest)
    ensures AgentNext(JOINED, GetsProposal(9, FIRST, 0), digest).agent == Consenting(digest)
  {
    ProposalStores(JOINED, 9, FIRST, digest(FIRST), 0);
  }

  lemma Prepares(digest: Terms -> Digest)
    ensures AgentNext(Consenting(digest), GetsPrepare(Offer(digest)), digest).agent == Holding(digest, Prepared)
  {
    assert Preparable(Consenting(digest), Offer(digest));
  }

  lemma Commits(digest: Terms -> Digest)
    ensures AgentNext(Holding(digest, Prepared), GetsCommit(6, 2), digest).agent == Holding(digest, GrantActive)
  {
  }

  /** Up to here what is held is bound to the running incarnation on the agent's own side. */
  lemma HoldsOwnSide(digest: Terms -> Digest)
    ensures Sound(Holding(digest, GrantActive), true)
  {
  }

  lemma TakesSwapUp(digest: Terms -> Digest)
    ensures TakesUp(Holding(digest, GrantActive), 9, SWAPPED)
    ensures OwnSide(SWAPPED.parties, Holding(digest, GrantActive).cluster) == Some(Second)
  {
  }

  lemma SwapTurns(digest: Terms -> Digest)
    ensures !Sound(AgentNext(Holding(digest, GrantActive), GetsProposal(9, SWAPPED, 0), digest).agent, true)
  {
    TakesSwapUp(digest);
    HoldsOwnSide(digest);
    HoldsGrant(digest);
    TurnedSide(Holding(digest, GrantActive), 9, SWAPPED, 6, digest);
  }

  lemma HoldsGrant(digest: Terms -> Digest)
    ensures var a := Holding(digest, GrantActive);
            && 6 in a.reg.grants && Retained(a.reg.grants[6]) && a.reg.grants[6].contract == 9
            && OwnSide(SWAPPED.parties, a.cluster).Some?
            && a.reg.grants[6].bindings.At(OwnSide(SWAPPED.parties, a.cluster).value).incarnation != a.incarnation
  {
  }

  /** Taking up terms that turn the side of one held grant breaks the own-side form. */
  lemma TurnedSide(a: Agent, contract: Uuid, t: Terms, g: Uuid, digest: Terms -> Digest)
    requires Sound(a, true) && TakesUp(a, contract, t) && g in a.reg.grants && Retained(a.reg.grants[g])
    requires a.reg.grants[g].contract == contract && OwnSide(t.parties, a.cluster).Some?
    requires a.reg.grants[g].bindings.At(OwnSide(t.parties, a.cluster).value).incarnation != a.incarnation
    ensures !Sound(AgentNext(a, GetsProposal(contract, t, 0), digest).agent, true)
  {
    ProposalOwnSide(a, contract, t, digest(t), 0);
  }

  function Steps(digest: Terms -> Digest): seq<AgentEvent> {
    [SetsState(ClusterActive, 0, 0), GetsHelloAck(true, 4, 1), GetsProposal(9, FIRST, 0), GetsPrepare(Offer(digest)),
     GetsCommit(6, 2)]
  }

  lemma Extends(a: Agent, events: seq<AgentEvent>, digest: Terms -> Digest, i: nat)
    requires i < |events|
    ensures RunEvents(a, events[..i + 1], digest)
            == AgentNext(RunEvents(a, events[..i], digest), events[i], digest).agent
  {
    assert events[..i + 1][..i] == events[..i];
  }

  lemma RunsTo(digest: Terms -> Digest)
    ensures RunEvents(STARTED, Steps(digest), digest) == Holding(digest, GrantActive)
  {
    var events := Steps(digest);
    assert events[..0] == [] && events[..5] == events;
    Extends(STARTED, events, digest, 0);
    Activates(digest);
    Extends(STARTED, events, digest, 1);
    Joins(digest);
    Extends(STARTED, events, digest, 2);
    Consents(digest);
    Extends(STARTED, events, digest, 3);
    Prepares(digest);
    Extends(STARTED, events, digest, 4);
    Commits(digest);
  }

  /** Whatever the digest: after this run the swapped proposal breaks the own-side form. */
  lemma SwappedProposalTurnsSide(digest: Terms -> Digest)
    ensures Begin(CONFIG, EMPTY_REGISTRY, 1, 7).Some?
    ensures var a := RunEvents(Begin(CONFIG, EMPTY_REGISTRY, 1, 7).value, Steps(digest), digest);
            Sound(a, true) && !Sound(AgentNext(a, GetsProposal(9, SWAPPED, 0), digest).agent, true)
  {
    Starts();
    RunsTo(digest);
    HoldsOwnSide(digest);
    SwapTurns(digest);
  }
}
