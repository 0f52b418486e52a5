# Inter-cluster fabric: a verified model

The fabric lets endpoints of different clusters talk to each other only when both sides agreed to it. A
coordinator keeps the authoritative registry; one agent per cluster consents for its cluster and enforces what was
granted. A contract needs the consent of both clusters; a grant is prepared and committed on both agents, capacity is
reserved on both endpoints, and only then does `decide` authorize. Sessions, incarnations, generations, policy
generations, attempt identifiers and a durable coordinator term guard each step.

This project models that machinery in Dafny and proves what it is for:

* **The protocol** (`Coordinator`, `Agent`, `Protocol`, `ProtocolProof`, `Safety`, `Staleness`, `AgentRuns`, `OwnSides`,
  `SwappedParties`, `Effects`, `HandlerEffects`, `AgentEffects`, `FlowRuns`, `SampleRun`, `FencedReturn`). One
  coordinator, any number of agents, a network that delays, loses and repeats, disconnects, and restarts of every
  process. In every run an authorization rests on what both agents really stored and really accepted; what has been
  superseded stays superseded; nothing recovered from disk carries authority; what each message, tick and operator step
  does is told by the fields of the records.
* **Fencing and the capacity ledger** (`Fencing`, `FenceEffects`, `FenceReach`, `FenceTally`, `Planning`, `Ledger`,
  `LedgerRuns`, `LedgerTally`, `ReportedCounters`). Fence plans are complete, and idempotent and independent of their
  order under an exact condition on the audit trail. In runs whose reports carry the counters of the ledger no endpoint
  is over-committed and, without a restart, counters equal the ledger; what happens under other reports is shown too.
* **The decision engine** (`Policy`, `PolicyScope`, `Engine`, `Verdicts`, `Reference`, `DecisionFrame`). `decide`
  authorizes exactly when a declarative predicate holds, agrees with the set-based reference of the differential tests,
  and otherwise reports the first fault in the order of its checks.
* **The durable store** (`Wal`, `WalFile`, `Snapshot`, `Store`, `StoreRuns`, `ServedTerms`, `StoreFormat`,
  `ReplayEffects`). Torn-tail recovery, transparent replay and compaction over histories with torn stops, what a replay
  leaves under every identity, and authority terms that only rise.
* **The codecs** (`Wire`, `Utf8`, `ByteBuffers`, `Canonical`, `RegistryCodec`, `Mutation`, `Transport`, `ExactBytes`,
  `Time`, `Calendar`). Round trips with any trailing bytes, parsers that accept exactly what the writers write, in-order
  delivery over any pattern of partial writes and reads, and the calendar.

Handlers are functions from one state to the next; the classes `LiveRegistry`, `LiveCoordinator`, `LiveAgent`,
`LogFile`, `FrameParser`, `Connection`, `ByteWriter` and `ByteReader` change their fields in place as the source does
and are proved against those functions. Clocks, random identities, hash functions and checksums are parameters;
nothing is assumed of a checksum or of the message authentication code, and collision freedom of the terms digest is
an explicit hypothesis of the one theorem that needs it.

Every identity of the source (a bounded text or a UUID) is a byte string or a number; its ordered maps are Dafny maps,
and where iteration order matters it is stated (`Names`, `SortedIds`).

## Facts about the code that the proofs brought out

* `on_grant_committed` does not look at the grant's state, so `Fenced` and `Aborted` are not final at the coordinator
  (`Effects.CommitDecides`), although revalidation refuses a fenced grant as "never revived": one repeated commit reply
  and every pair the grant carried is authorized again (`FencedReturn.FencedGrantReturns`,
  `FencedReturn.AbortedGrantReturns`, and the run `FencedReturn.FencedThenAuthorized`). Safety comes from bindings,
  attempts and terms instead.
* Revalidation changes the attempt before it looks up the contract; acknowledgements survive the change exactly when
  the contract is missing (`Safety.AttemptChangeDropsAcknowledgements`), where nothing can be authorized.
* A report replaces the endpoint counters; the ledger stays right exactly when the reported counters match it
  (`LedgerRuns.ReportReplacesCounters`). Two agents that repeat the very records they registered with give their
  endpoints away a second time (`ReportedCounters.ServedTwice`); `ReportedCounters.ReportsOvercommit` is a run from an
  empty registry to two usable grants of ten over an endpoint with capacity ten.
* A report may also drop an endpoint that holds a reservation. The ledger stays right, but a fence then reports the
  amount as released although no counter gives it back (`LedgerTally.DroppedEndpointMiscounts`); in general
  `capacity_released` is the counters' decrease exactly when no reservation the plan reaches is against an endpoint
  nobody declares (`FenceTally.TallyIsCounterDecrease`).
* A reservation is booked with one cluster and returned to every cluster declaring the endpoint; the ledger survives
  exactly when the others already count it (`LedgerRuns.ReservationCovers`, `LedgerRuns.SharedEndpointUncovered`).
* Each withdrawn grant or contract costs an audit line, and the first line a full trail refuses ends the fence after its
  record has changed. How many lines a plan needs is known beforehand (`FenceReach.RunsToEnd`), and with it exactly when
  a second application changes nothing (`FenceReach.ApplyTwice`) and when the order of a plan makes no difference
  (`FenceReach.OrderIrrelevant`); `FenceReach.FullTrailStopsMidway` is an input where neither holds.
* An agent accepts a later proposal that swaps the parties of a known contract; if a grant of that contract is held, its
  own side is then bound to the other cluster's incarnation (`SwappedParties.SwappedProposalTurnsSide`, and
  `AgentRuns.OwnSideExactly` for exactly when). The coordinator never sends such a proposal
  (`OwnSides.HeldOnOwnSide`).
* A parser may refuse bytes of a legal stream: the limit of `push` leaves room for one largest frame. A receiver that
  asks for frames before every read is refused exactly when a frame and the bytes read beyond it exceed that
  (`Transport.RefusedExactly`; `Transport.LargestFramesRefused` is such a stream). The repository's receiver does not
  ask between reads: `fill` pushes 16 KiB pieces until a read is short, so a backlog of small frames is refused as soon
  as it exceeds one largest frame altogether (`Transport.BacklogRefusedExactly`).
* The instants between the 64-bit minimum and -9223372036 seconds print but are refused when read back
  (`Timestamps.PrintParse`). Days that do not exist, such as 31 February, are read as later ones, so what was read does
  not print as the text it came from (`Timestamps.ParsePrint`, `Timestamps.DateRoundTrip`).
* A term above 2^62 is written by a start but refused on replay, so the start after it fails unless a compaction has
  emptied the log in between (`ServedTerms.HighTermNeedsCompaction`). With compactions terms rise up to the largest
  64-bit number, where `Term::next` fails and the old value is served again (`ServedTerms.TermsRise`,
  `StoreFormats.LargestTermTwice`).

## Model

| member | source | states |
|---|---|---|
| `Safety.AuthorizedIsEnforced` | src/runtime/coordinator.cpp:1322-1376 | In every run, whenever `decide` authorizes over a grant, each party's agent had, at that or an earlier point of the run, stored exactly the grant's current attempt as Active while running in the incarnation now recorded for its cluster. |
| `Safety.EnforcedNow` | src/runtime/engine.cpp:177-258 | In any state that satisfies the protocol invariant, an authorization implies the activation of both sides in the history. |
| `Safety.ActivationHappened` | src/runtime/agent.cpp:1013-1060 | Every activation the history records was, at some earlier world of the run, the stored state of that agent in that incarnation. |
| `Safety.AuthorizedIsAgreed` | src/runtime/coordinator.cpp:811-900 | In every run with a digest that does not collide on the terms in play, an authorized contract has one terms value which the coordinator proposed and each of the two agents accepted in an earlier step of the run, and which names the incarnation, generation and policy generation now recorded for both clusters. |
| `Safety.AcceptanceHappened` | src/runtime/agent.cpp:846-909 | Every acceptance the history records was an earlier step of the run in which that agent took up a proposal with those terms and found them acceptable. |
| `Safety.PartyAccepted` | src/runtime/engine.cpp:118-175 | The proposed terms of an authorized contract were accepted by the party on each side and carry its current binding. |
| `Safety.AttemptChangeDropsAcknowledgements` | src/runtime/coordinator.cpp:2135-2172 | Revalidating with a new attempt keeps an acknowledgement if and only if the grant's contract is not registered. |
| `Safety.OrphanAuthorizesNothing` | src/runtime/coordinator.cpp:2147-2157 | A grant whose contract is not registered authorizes nothing. |
| `Effects.CommitDecides` | src/runtime/coordinator.cpp:1346-1376 | An accepted commit reply makes an unusable grant usable if and only if it completes both acknowledgements and both sides can be reserved, whatever state the grant was in. |
| `FencedReturn.FencedGrantReturns` | src/runtime/coordinator.cpp:1346-1376 | A usable grant that is fenced carries nothing, and acknowledged once more by either agent it is usable again if and only if both endpoints still have room for it; when the plan withdrew that grant alone, exactly the queries authorized before the fence are authorized again. |
| `FencedReturn.AbortedGrantReturns` | src/runtime/coordinator.cpp:1145-1166 | The same of a usable grant that an agent aborts: it keeps its reservations, and returns if and only if both endpoints have room for it a second time. |
| `DecisionFrame.LedgerDoesNotDecide` | src/runtime/engine.cpp:331-515 | Registries that differ only in counters, reservations, links, audit lines and in which usable state a grant is authorize exactly the same queries, over the same contracts and grants. |
| `FencedReturn.FlowReturns` | src/runtime/coordinator.cpp:1265-1376 | Every open flow with room for twice its grant can go either way: four replies, in use, fenced or aborted and carrying nothing, one repeated commit reply, in use again with the same decisions. |
| `FencedReturn.FencedThenAuthorized` | src/runtime/coordinator.cpp:2478-2507 | A whole run of the handlers from an empty registry: registration, reports, path and rules, proposal, consents, issue and replies end in an authorized query; the grant fenced by the operator, or aborted, carries nothing; after the repeated reply the query is authorized again. |
| `Safety.RestartAuthorizesNothing` | src/runtime/coordinator.cpp:73-136 | After a successful start on any recovered registry no grant is live, every reservation is released and no query is authorized. |
| `Effects.FlowCompletes` | src/runtime/coordinator.cpp:1265-1376 | An open flow whose two prepare and two commit replies arrive ends in a usable grant if and only if both endpoints have room for it. |
| `Effects.IssueOpensFlow` | src/runtime/coordinator.cpp:2077-2133 | Issuing over an open contract with both agents present, in the incarnation and generation on record, opens a flow that both can answer. |
| `Effects.BothPrepared` | src/runtime/coordinator.cpp:1219-1320 | The two prepare replies, in either order, change the grant from preparing to prepared and nothing else in the registry. |
| `Effects.ReserveSucceeds` | src/runtime/coordinator.cpp:1047-1105 | With room for the records, reserving succeeds if and only if each party's endpoint is declared and has room. |
| `Effects.FinaliseDecides` | src/runtime/coordinator.cpp:1107-1143 | Finalising an unusable grant with both acknowledgements makes it usable if and only if both sides can be reserved, and then leaves exactly the reserved ledger and the committed grant. |
| `Effects.ConsentTakesEffect` | src/runtime/coordinator.cpp:811-900 | A fitting, new consent is recorded for its side alone; the contract is consented if and only if now both sides accept, and a refusal refuses it. |
| `Effects.ReincarnationCutsOff` | src/runtime/coordinator.cpp:559-601 | A handshake under a new incarnation records it and its session, and afterwards nothing is authorized over the cluster's contracts. |
| `Effects.WithdrawalCutsOff` | src/runtime/coordinator.cpp:1416-1473 | A withdrawal by the current incarnation is recorded, and afterwards nothing is authorized over the cluster's contracts. |
| `Effects.ConflictCutsOff` | src/runtime/coordinator.cpp:725-757 | So it is when two contents claim one generation. |
| `Effects.PolicyChangeCutsOff` | src/runtime/coordinator.cpp:759-796 | So it is when a report with a greater policy generation is accepted. |
| `Effects.ExpiryIsExact` | src/runtime/coordinator.cpp:1623-1675 | After the tick exactly the usable grants whose lease was over are expired and every other grant is as it was, even when the fence plan stops midway. |
| `HandlerEffects.ExpiryEffect` | src/runtime/coordinator.cpp:1623-1675 | On fields: exactly the committed or active grants with `now` past their validity end as expired. |
| `HandlerEffects.HelloEffect` | src/runtime/coordinator.cpp:541-686 | A session is opened exactly for a handshake that names a cluster and a domain and is either new where registration is open and there is room, or of the recorded domain, with a generation not behind the record (ahead of it for a new incarnation) and otherwise a policy generation not behind it, and whose fence, if it needs one, is complete; the record and the session then carry what the handshake said. |
| `HandlerEffects.RegistersAsToldBy` | src/runtime/coordinator.cpp:508-520 | A new cluster is recorded as unknown, with the identity, domain, incarnation, generations and digest of the handshake and no endpoints. |
| `HandlerEffects.DisconnectEffect` | src/runtime/coordinator.cpp:365-428 | A lost connection takes its session along, leaves its flows without that target, and makes indeterminate exactly the grants of its cluster that were preparing or prepared. |
| `HandlerEffects.ReportEffect` | src/runtime/coordinator.cpp:717-796 | A report of the current incarnation that is not behind marks a conflict exactly when it claims the recorded generation with another nonzero content and no newer policy; otherwise it replaces the record but for the domain exactly when its policy is not behind and the record fits, and fences when the policy moved; any other report changes nothing. |
| `HandlerEffects.ConsentEffect` | src/runtime/coordinator.cpp:811-900 | A notice about the contract's terms and endpoint, under the session's incarnation and generation, is recorded field by field on the side the session speaks for; the contract is refused by a refusal, consented when the other side accepts too, and waiting otherwise; a notice already on record changes nothing. |
| `HandlerEffects.ConsentIgnored` | src/runtime/coordinator.cpp:811-900 | Any other notice changes nothing. |
| `HandlerEffects.ProposeEffect` | src/runtime/coordinator.cpp:1995-2075 | A proposal is recorded exactly when both clusters are known, its terms are valid and there is a place; the terms bind both clusters as recorded now, with one unit and the configured lease where it names none. |
| `HandlerEffects.IssueEffect` | src/runtime/coordinator.cpp:2077-2133 | A grant is issued exactly over a consented or active contract between known clusters, for no more than its capacity; it carries this coordinator's term and incarnation, the recorded bindings, the contract's digest and lease, and no acknowledgement. |
| `HandlerEffects.RevalidateEffect` | src/runtime/coordinator.cpp:2135-2172 | A renewed grant keeps identity, contract, bindings and capacity and starts over under the new attempt with a new lease; without its contract it gets the new attempt only. |
| `HandlerEffects.RepliesExactly` | src/runtime/coordinator.cpp:1265-1345 | A reply counts exactly for the side its session speaks for, about the current attempt, in the incarnation and generation the grant is bound to there. |
| `HandlerEffects.PreparedEffect` | src/runtime/coordinator.cpp:1265-1320 | While a grant is being prepared a refusal aborts it and closes its flow; an acceptance is noted, and with both the grant is prepared, or indeterminate when an agent was lost. |
| `HandlerEffects.PreparedIgnored` | src/runtime/coordinator.cpp:1265-1300 | A prepare reply that does not count changes nothing. |
| `HandlerEffects.CommittedEffect` | src/runtime/coordinator.cpp:1322-1376 | A commit reply that does not count changes nothing, and a failed installation aborts the grant unless it was fenced or withdrawn, and closes its flow. |
| `HandlerEffects.AbortedEffect` | src/runtime/coordinator.cpp:1378-1391 | A session may abort any grant that is not fenced or withdrawn; nobody else may. |
| `HandlerEffects.AssessEffect` | src/runtime/coordinator.cpp:1491-1548 | A status report acknowledges a grant exactly when the first entry about it enforces its attempt and its binding is the session's; it withdraws the grant exactly when it is enforced otherwise, or counts as usable and is not enforced. |
| `HandlerEffects.AssessedEffect` | src/runtime/coordinator.cpp:1487-1548 | Before anything is fenced a report changes a grant of its cluster only so: an acknowledgement on its side, and indeterminate if it counted as usable and is not enforced; exactly that grant and one enforced wrongly are withdrawn. |
| `HandlerEffects.AssessedOthers` | src/runtime/coordinator.cpp:1487-1496 | Grants that do not concern the cluster are neither changed nor withdrawn. |
| `HandlerEffects.ConsentChangeEffect` | src/runtime/coordinator.cpp:2174-2211 | A withdrawal by the operator cuts the cluster off; taking it back clears the record and gives nothing back. |
| `HandlerEffects.ResolutionEffect` | src/runtime/coordinator.cpp:2213-2259 | A conflict is resolved exactly by a generation above the recorded one, which cuts the cluster off. |
| `HandlerEffects.StateEffect` | src/runtime/coordinator.cpp:2300-2317 | Retiring a cluster cuts it off; any other state is only recorded. |
| `HandlerEffects.RoomExactly` | src/runtime/coordinator.cpp:1047-1105 | There is room exactly when the endpoint is declared and its counter and the amount are within its capacity. |
| `HandlerEffects.ReserveSideEffect` | src/runtime/coordinator.cpp:1047-1105 | A reservation with room raises that endpoint's counter alone and stores its record field by field where there is a place; without room it changes nothing. |
| `HandlerEffects.LaterClamps` | src/core/time.cpp:76-84 | Adding a duration to a timestamp stops at the ends of the 64-bit range and is exact within it. |
| `FlowRuns.RetryGoesOn` | src/runtime/coordinator.cpp:1677-1704 | A flow not past its deadline and with fewer than 64 attempts goes on with one more; its prepared flags, deadline and connected targets stay, a missing target becomes the newest session of its party if there is one, and its grant is as it was. |
| `FlowRuns.RetryGivesUp` | src/runtime/coordinator.cpp:1694-1706 | Any other flow is closed and its grant aborted unless fenced or withdrawn. |
| `FlowRuns.RetryLeavesRest` | src/runtime/coordinator.cpp:1677-1706 | A retry opens no flow and leaves every grant without a flow, and everything else, alone. |
| `FlowRuns.FlowEnds` | src/runtime/coordinator.cpp:1677-1706 | Over every stretch of a run, whatever else happens in it: after 65 retries no flow opened before it is left. |
| `FlowRuns.OverdueEnds` | src/runtime/coordinator.cpp:1694-1702 | Nor one whose deadline a retry came after. |
| `FlowRuns.NoneOverdue` | src/runtime/coordinator.cpp:1694-1702 | After a retry no open flow is overdue. |
| `FlowRuns.FlowBegins` | src/runtime/coordinator.cpp:1168-1217 | A flow begins with both newest sessions as its targets, unprepared, with no attempt and the configured time ahead of it. |
| `ProtocolProof.StepKeepsInv` | src/runtime/coordinator.cpp:321-363 | Every step of coordinator, agents, network or restart keeps the protocol invariant. |
| `ProtocolProof.InvAlways` | src/runtime/coordinator.cpp:321-363 | The invariant holds in every world of every run from a first start. |
| `ProtocolProof.SentIsHonest` | src/runtime/agent.cpp:772-1157 | Whatever an agent sends, it is entitled to send: acknowledgements and status entries report activations of its incarnation, acceptances report terms it accepted with its own binding. |
| `ProtocolProof.ReceiveRecords` | src/runtime/coordinator.cpp:321-363 | Handling any honest message keeps acknowledgements backed by activations and consents by acceptances. |
| `ProtocolProof.AdministerRecords` | src/runtime/coordinator.cpp:2261-2523 | So do expiry, retries and every administrative step. |
| `ProtocolProof.RestartRecords` | src/runtime/coordinator.cpp:73-136 | So does a restart that finds contracts once stored and grants of another incarnation. |
| `Evidence.CommittedKeepsBacked` | src/runtime/coordinator.cpp:1322-1376 | A commit reply acknowledges only for the session's own side, attempt and bound incarnation. |
| `Evidence.StatusKeepsBacked` | src/runtime/coordinator.cpp:1475-1598 | A status report acknowledges only what the reporting incarnation enforces under the current attempt. |
| `Evidence.ConsentKeepsBacked` | src/runtime/coordinator.cpp:811-900 | A recorded consent is backed by an acceptance of the same digest and binding. |
| `Evidence.RevalidateKeepsBacked` | src/runtime/coordinator.cpp:2135-2172 | A new attempt starts without acknowledgements that were given for another. |
| `Evidence.IssueKeepsBacked` | src/runtime/coordinator.cpp:2077-2133 | A new grant starts without acknowledgements. |
| `Evidence.ProposeKeepsBacked` | src/runtime/coordinator.cpp:1995-2075 | A new contract carries the digest of the terms composed from the registry and no consent. |
| `Coordination.IssueRecords` | src/runtime/coordinator.cpp:2077-2133 | Issuing either changes nothing or adds exactly the new grant, bound to the clusters as recorded, and opens its flow. |
| `Coordination.RevalidateRecords` | src/runtime/coordinator.cpp:2135-2172 | Revalidating refuses a fenced grant and otherwise renews exactly that grant. |
| `Coordination.FenceClusterEnds` | src/runtime/coordinator.cpp:1033-1045 | A cluster fence is complete if and only if the audit trail takes the lines of its plan and the closing one. |
| `Coordination.PrepareLeavesRecords` | src/runtime/coordinator.cpp:1168-1217 | Preparing a grant that is already being prepared changes no record. |
| `Frames.HelloIsTame` | src/runtime/coordinator.cpp:541-631 | A handshake gives nobody anything and moves generations only forward; a new incarnation needs a greater generation. |
| `Frames.ReportIsTame` | src/runtime/coordinator.cpp:717-777 | So does a cluster report, accepted, stale or conflicting. |
| `Frames.WithdrawIsTame` | src/runtime/coordinator.cpp:1416-1473 | So does a withdrawal. |
| `Frames.ResolveIsTame` | src/runtime/coordinator.cpp:2213-2259 | So does resolving a conflict, which needs a greater generation. |
| `Frames.FinaliseIsTame` | src/runtime/coordinator.cpp:1107-1143 | Finalising changes nothing about a grant but its state and no binding, consent or generation. |
| `Frames.RetryIsTame` | src/runtime/coordinator.cpp:1677-1722 | Retrying and timing out flows changes only grant states. |
| `Staleness.StaleForever` | src/runtime/coordinator.cpp:541-631 | Within a run of the coordinator, a grant bound on either side to a superseded triple is never again accepted by `decide` in any continuation. |
| `Staleness.ReplacedForever` | src/runtime/engine.cpp:230-248 | In particular once the recorded triple differs from the one the grant was issued under. |
| `Staleness.RunContinues` | src/runtime/coordinator.cpp:2225-2232 | Over any stretch without a restart generations and policy generations never decrease, incarnations change only with a greater generation, grants keep contract and bindings, contracts their parties. |
| `Staleness.SupersededStays` | src/runtime/engine.cpp:230-248 | A superseded binding stays superseded and differs from the current triple. |
| `AgentRuns.LifeIsSound` | src/runtime/agent.cpp:911-1060 | Over every run with crashes and arbitrary messages, every Prepared, Active, Committed or Indeterminate grant of an agent is Prepared or Active, carries the running incarnation on one side and the coordinator term of the last accepted handshake. |
| `AgentRuns.OwnSideExactly` | src/runtime/agent.cpp:846-909 | Over every such run the incarnation is on the agent's own side at every point if and only if no proposal that was taken up put a held grant of its contract on a side bound to another incarnation. |
| `AgentRuns.StepOwnSide` | src/runtime/agent.cpp:846-909 | The same for one step, for every event. |
| `OwnSides.HeldOnOwnSide` | src/runtime/agent.cpp:86-151 | In every run of the whole protocol in which agents are sent the coordinator's own proposals and contract identities are not reused, every held grant is bound to the running incarnation on the agent's own side, without further condition. |
| `AgentRuns.PreparedThenCommitted` | src/runtime/agent.cpp:911-1060 | An accepted prepare can be committed under its own attempt and no other; the grant then stored is the prepared one, enforceable exactly while its lease and the cluster allow. |
| `AgentRuns.EnforcementIsEarned` | src/runtime/agent.cpp:86-151 | After a start, every held grant was prepared, and every active one then committed, under the very same attempt, by messages received after that start. |
| `AgentRuns.FreshStart` | src/runtime/agent.cpp:86-151 | Right after a start nothing recovered is held. |
| `AgentRuns.HandshakeKeepsSound` | src/runtime/agent.cpp:719-753 | Accepting a handshake leaves only grants of its term. |
| `AgentRuns.BumpOperates` | src/runtime/agent.cpp:1346-1382 | Advancing the generation only takes enforcement away, although it compares with the agent's own term. |
| `AgentEffects.TickSettles` | src/runtime/agent.cpp:515-559 | On fields: after a tick a grant is active exactly when it was, its lease is not over and, if the coordinator is required, its contract is on record, its own side has the agent's incarnation and generations, its term is the coordinator's and the cluster is active and not withdrawn; a committed or active grant past its lease is expired, an active one otherwise fenced, and everything else is as it was. |
| `AgentEffects.WithdrawSettles` | src/runtime/agent.cpp:1403-1426 | A withdrawal that can be stored settles every grant the same way under the new standing; one that cannot leaves the grants alone. |
| `AgentEffects.StateSettles` | src/runtime/agent.cpp:1330-1344 | So does a change of state. |
| `AgentEffects.PolicySettles` | src/runtime/agent.cpp:1384-1401 | So does a policy generation, unless it goes back, which changes nothing. |
| `AgentEffects.StateIsReported` | src/runtime/agent.cpp:1330-1344 | A change of state that is stored is reported by a joined agent as it was stored; a refused one is not. |
| `AgentEffects.PolicyIsReported` | src/runtime/agent.cpp:1384-1401 | So is a policy generation that does not go back. |
| `AgentEffects.EndpointsAreReported` | src/runtime/agent.cpp:1446-1477 | So are new endpoints. |
| `AgentEffects.BumpIsReported` | src/runtime/agent.cpp:1346-1382 | So is a greater generation. |
| `AgentEffects.HandshakeIsReported` | src/runtime/agent.cpp:719-753 | So is the record on file after an accepted handshake. |
| `AgentEffects.WithdrawalIsTold` | src/runtime/agent.cpp:1403-1426 | A joined agent tells its coordinator that it has withdrawn. |
| `AgentEffects.WithdrawnEnforcesNothing` | src/runtime/agent.cpp:1403-1426 | An agent that answers to its coordinator has no active grant after withdrawing. |
| `AgentEffects.LapsedUntilPrepared` | src/runtime/agent.cpp:911-1060 | Over every run with crashes and arbitrary messages, a grant that is not held comes back only by being prepared again. |
| `AgentEffects.LeaseEnds` | src/runtime/agent.cpp:515-559 | So after a tick past its lease a grant is never enforced again without a new prepare. |
| `AgentEffects.AnswersProposal` | src/runtime/agent.cpp:772-909 | An agent answers with its consent exactly when the terms are proper, bound on its own side to its incarnation and generations, for an endpoint it has on record as active and open, while its cluster is active and not withdrawn; otherwise it refuses; the notice carries its identity, term and the digest. |
| `AgentEffects.RecordsConsent` | src/runtime/agent.cpp:848-909 | Accepted terms are on record with the agent's consent before they are answered, and what was recorded of the other side is kept; a refusal changes nothing. |
| `AgentEffects.PreparesExactly` | src/runtime/agent.cpp:911-1011 | A grant is prepared, and so answered, exactly when it is for terms the agent consented to, of its coordinator's term, bound to its incarnation and generations and within its endpoint's capacity. |
| `AgentEffects.CommitsExactly` | src/runtime/agent.cpp:1013-1060 | A commit takes effect exactly on the attempt that is prepared or active. |
| `AgentEffects.PersistStores` | src/runtime/agent.cpp:153-189 | The agent's record is stored exactly when it fits, with its standing and its endpoints under the cluster's name and policy generation. |
| `AgentEffects.HandshakeFences` | src/runtime/agent.cpp:719-753 | An accepted handshake fences exactly the held grants of another term. |
| `AgentEffects.BumpFences` | src/runtime/agent.cpp:1346-1382 | A greater generation fences everything enforced, and what else is held under another number than the agent's own term. |
| `AgentEffects.StartFences` | src/runtime/agent.cpp:86-151 | A start fences what was held or being prepared, never goes behind the stored generation or policy generation, keeps a stored state and withdrawal, and moves past the stored generation unless it is the largest. |
| `AgentEffects.OrdersEnd` | src/runtime/agent.cpp:1062-1126 | An abort and a fence end exactly the grants they name. |
| `AgentEffects.RestoreRevivesNothing` | src/runtime/agent.cpp:1487-1489 | Taking a withdrawal back revives no grant. |
| `AgentEffects.ConnectsWithHello` | src/runtime/agent.cpp:311-376 | A new connection begins with a handshake that tells the agent's cluster, incarnation and generations. |
| `SwappedParties.SwappedProposalTurnsSide` | src/runtime/agent.cpp:846-909 | A run from a start in which the own-side form fails: a proposal with the parties swapped for a contract with an active grant is accepted. |
| `Planning.PlanFence` | src/runtime/engine.cpp:517-606 | The plan for a cluster names only what belongs to it, names all of it while within the bound, and releases a reservation only after its live grant. |
| `Planning.PlanContract` | src/runtime/engine.cpp:557-599 | The actions for one contract are exactly its live grants, their open reservations and, if it had a live grant, the contract. |
| `Planning.FenceComplete` | src/runtime/fencing.cpp:53-124 | After a within-bound plan was applied successfully no contract of the cluster has a live grant, their reservations are released, and grants and contracts not involving it are untouched. |
| `Planning.FencedClusterCarriesNothing` | src/runtime/engine.cpp:331-515 | Then no query is authorized over a contract that names the cluster. |
| `Planning.RecoveryFencesAll` | src/runtime/fencing.cpp:126-160 | Applying the recovery plan leaves no live grant and no unreleased reservation, whatever was recovered. |
| `Planning.AuthorizedGrant` | src/runtime/engine.cpp:177-258 | What an authorization rests on: a usable latest grant of the contract whose consents and bindings check. |
| `Fencing.PlanWithdraws` | src/runtime/fencing.cpp:12-124 | Every plan, complete or stopped midway, only withdraws: states, releases and lowered counters, nothing else. |
| `FenceEffects.PlanEffect` | src/runtime/fencing.cpp:53-124 | A plan that runs to its end withdraws exactly what it names. |
| `HandlerEffects.ReturnEffect` | src/runtime/fencing.cpp:12-49 | What is released goes back to every cluster that declares the endpoint and to no other, and never takes a counter below zero. |
| `HandlerEffects.FenceEffect` | src/runtime/fencing.cpp:53-124 | On states: a finished plan fences the named grants that are not aborted, fenced or withdrawn, and ends the named contracts as withdrawn when a cluster withdrew and as fenced otherwise. |
| `HandlerEffects.PlansExactly` | src/runtime/engine.cpp:517-606 | On states: the plan for a cluster names the preparing, prepared, committed, active or indeterminate grants over its contracts, what grants over them hold, and its contracts with such a grant that are not withdrawn. |
| `HandlerEffects.RecoversExactly` | src/runtime/fencing.cpp:126-160 | On states: the plan of a restart names exactly the grants in those five states and every unreleased reservation. |
| `FenceReach.RunsToEnd` | src/runtime/fencing.cpp:53-124 | A plan runs to its end if and only if the audit trail takes one line for each distinct grant or contract it finds to withdraw, and then has written exactly those. |
| `FenceReach.SettlesExactly` | src/runtime/fencing.cpp:53-124 | A plan leaves nothing to do if and only if no action with something to withdraw lies after the first line the trail refuses. |
| `FenceReach.ApplyTwice` | src/runtime/fencing.cpp:53-124 | Applying a plan again changes nothing under exactly that condition, which is one on the registry and the plan before the first application. |
| `FenceReach.FullTrailStopsMidway` | src/runtime/fencing.cpp:79-84 | A registry with a full trail in which the first application stops after one grant and the second withdraws the other. |
| `FenceReach.OrderIrrelevant` | src/runtime/fencing.cpp:12-124 | With covering counters, all permutations of a plan leave the same grants, contracts, reservations and counters if and only if every action with something to withdraw would be reached even as the last one; and then so does every plan with the same set of actions, repeated or not. |
| `FenceReach.RoomIsOrderFree` | src/runtime/fencing.cpp:53-124 | A trail that takes all lines of a plan is enough for that condition. |
| `FenceReach.RoomReaches` | src/runtime/fencing.cpp:53-124 | Such a trail is also enough for every action of the plan to be reached, so that a second application changes nothing. |
| `FenceReach.OrderKeepsSuccess` | src/runtime/fencing.cpp:53-124 | Whether a plan runs to its end does not depend on the order of its actions. |
| `FenceEffects.PlanKeepsGap` | src/runtime/fencing.cpp:12-49 | A covering counter exceeds the ledger by the same amount before and after any plan: the clamp to zero is never taken. |
| `FenceTally.TallyWithStray` | src/runtime/fencing.cpp:111-120 | For every plan, complete or stopped midway: `capacity_released`, the counters that remain and the unreleased reservations no counter holds add up to the counters and such reservations before. |
| `FenceTally.TallyIsCounterDecrease` | src/runtime/fencing.cpp:111-120 | `capacity_released` equals the total decrease of all counters if and only if no action that is reached releases a reservation of some amount against an endpoint no cluster declares. |
| `LedgerTally.FencesReportDecrease` | src/runtime/fencing.cpp:53-124 | In every ledger run whose reports keep the endpoints that hold a reservation, every fence of every step reports exactly what the counters give back. |
| `LedgerTally.AlwaysDeclared` | src/runtime/coordinator.cpp:717-777 | At every state of such a run each unreleased reservation is against a declared endpoint. |
| `LedgerTally.FenceIsApplied` | src/runtime/coordinator.cpp:1033-1045 | The fence meant is the one the step applies: the step leaves reservations and counters as it does. |
| `LedgerTally.DroppedEndpointMiscounts` | src/runtime/coordinator.cpp:717-777 | An exact ledger step, a report without the endpoint that holds a reservation, after which a fence reports more than the counters give back. |
| `LiveRegistries.LiveRegistry.Release` | src/runtime/fencing.cpp:12-49 | Releasing marks one reservation and returns its amount to every cluster that declares the endpoint. |
| `LiveRegistries.LiveRegistry.ApplyFencePlan` | src/runtime/fencing.cpp:53-124 | The in-place loop leaves the registry and the tally of the plan's specification, also when it stops midway. |
| `Ledger.NoOvercommit` | src/runtime/coordinator.cpp:1047-1143 | Usable grants naming an endpoint fit its unreleased reservations, those its counter, and the counter its capacity. |
| `Ledger.ReserveKeepsLedger` | src/runtime/coordinator.cpp:1047-1105 | Reserving keeps the ledger, including a second side that fails after the first was reserved; counters stay exact given room for the records. |
| `Ledger.ReserveBacksBoth` | src/runtime/coordinator.cpp:1047-1105 | A successful reservation leaves an unreleased record of the whole capacity on each side. |
| `Ledger.FinaliseKeepsLedger` | src/runtime/coordinator.cpp:1107-1143 | A grant becomes usable only with both reservations in the ledger. |
| `Ledger.PlanKeepsLedger` | src/runtime/fencing.cpp:12-124 | Every plan whose releases follow their grants keeps the ledger, complete or stopped midway. |
| `Ledger.ReleasedWithGrant` | src/runtime/fencing.cpp:12-124 | A reservation released by such a plan belonged to no grant that is still usable. |
| `LedgerRuns.NeverOvercommitted` | src/runtime/coordinator.cpp:1623-1675 | In every run whose reports carry counters that cover the ledger, restarts included, no endpoint is over-committed. |
| `LedgerRuns.CapacityConserved` | src/runtime/coordinator.cpp:1047-1105 | In every run without restarts whose reports carry the ledger's counters, each counter equals the sum of the unreleased reservations, through reservation, abort, fencing and expiry. |
| `LedgerRuns.StepKeepsLedger` | src/runtime/coordinator.cpp:321-363 | Every handler, tick, administrative step and restart keeps the ledger invariant. |
| `LedgerRuns.ExpireKeepsLedger` | src/runtime/coordinator.cpp:1623-1675 | Expiry keeps the ledger even when its fence plan stops midway. |
| `LedgerRuns.StatusKeepsLedger` | src/runtime/coordinator.cpp:1475-1598 | A status report with its fences and finalisations keeps the ledger. |
| `LedgerRuns.ReportReplacesCounters` | src/runtime/coordinator.cpp:768-777 | An accepted report keeps the counters in order if and only if those it carries match the ledger. |
| `ReportedCounters.RepeatedReport` | src/runtime/coordinator.cpp:717-777 | A record that differs from the stored one in its counters alone is accepted and its counters take the place of the stored ones. |
| `ReportedCounters.ServedTwice` | src/runtime/coordinator.cpp:717-777 | For every open flow with room for its grant: once served, with both agents repeating their stored records, a second grant of the same size over the same contract is served too, and the usable grants at each endpoint of the contract hold twice that amount, whatever its capacity. |
| `ReportedCounters.ReportsOvercommit` | src/runtime/coordinator.cpp:717-777 | A run of the handlers from an empty registry in which the report that does not match the ledger is accepted and two grants of the whole capacity end in use over one endpoint. |
| `LedgerRuns.RecoveredLedger` | src/runtime/fencing.cpp:126-160 | A restart ends with nothing held and counters within capacity. |
| `LedgerRuns.ReservationCovers` | src/runtime/coordinator.cpp:1047-1105 | A reservation leaves every counter covering the ledger if and only if it is refused or every other cluster declaring the endpoint already counts its amount. |
| `LedgerRuns.SharedEndpointUncovered` | src/runtime/coordinator.cpp:1047-1105 | Two clusters with one endpoint where it does not. |
| `LiveCoordinators.PlanRevocation` | src/runtime/coordinator.cpp:1549-1578 | The plan for a set of grants fences them first and then releases exactly what they hold. |
| `LiveCoordinators.FenceRecovered` | src/runtime/fencing.cpp:126-160 | Planning and applying the recovery fence; on success no authority is left. |
| `LiveCoordinators.LiveCoordinator.OnDisconnect` | src/runtime/coordinator.cpp:365-428 | The in-place handler detaches the flows of the connection and makes the interrupted grants of its cluster indeterminate. |
| `LiveCoordinators.LiveCoordinator.Greets` | src/runtime/coordinator.cpp:430-686 | The in-place handshake follows its specification; its fence plan is the one for the registry with the new incarnation or policy generation on record, and there is none otherwise. |
| `LiveCoordinators.LiveCoordinator.OnStatus` | src/runtime/coordinator.cpp:1475-1598 | The three loops assess every grant, withdraw what must be, and finalise in order until one fails. |
| `LiveCoordinators.LiveCoordinator.Expire` | src/runtime/coordinator.cpp:1623-1675 | Fences and marks exactly the usable grants whose lease is over. |
| `LiveAgents.LiveAgent.FenceOthers` | src/runtime/agent.cpp:485-513 | The loop fences exactly the held grants of another coordinator term. |
| `LiveAgents.LiveAgent.Reevaluates` | src/runtime/agent.cpp:515-559 | The loop settles every grant. |
| `LiveAgents.LiveAgent.OnAcknowledged` | src/runtime/agent.cpp:719-753 | Joins under the new term, fences the rest and reports; a refusal drops the connection. |
| `LiveAgents.LiveAgent.OnFenceGrants` | src/runtime/agent.cpp:1088-1126 | The loop fences exactly the listed grants it knows. |
| `Policy.EvaluatePolicy` | src/model/policy.cpp:20-124 | Whatever the order of the rules: allowed if and only if no current matching rule of either domain refuses and each domain has a current matching allow; the degraded flag is the conjunction and the limit the least nonzero limit over current allows. |
| `Policy.AbsorbStep` | src/model/policy.cpp:20-41 | Absorbing one more rule extends the meaning of the rules seen so far. |
| `PolicyScope.RefusedExactly` | src/model/records.cpp:276-283 | On rule fields: a pair is refused exactly when some rule of either domain, whose cluster and endpoint fields are each empty or equal to the one in its place and which is not outdated, does not allow it. |
| `PolicyScope.AllowedExactly` | src/model/policy.cpp:44-124 | It is allowed exactly when no such rule refuses it and each domain has such a rule that allows it. |
| `PolicyScope.StaleExactly` | src/model/policy.cpp:64-78 | What is neither is stale exactly when a domain without an allowing rule has an outdated one about the pair. |
| `PolicyScope.ElsewhereIsIgnored` | src/model/policy.cpp:56-63 | A rule of another domain, or with a field that names something else, can be removed without changing decision, degraded flag or limit. |
| `PolicyScope.RefusingRuleBlocks` | src/runtime/engine.cpp:331-515 | One refusing rule about a pair and no query for it is authorized, whatever contracts and grants there are. |
| `PolicyScope.AuthorizedIsAllowed` | src/runtime/engine.cpp:331-515 | An authorization rests on an allowing rule of each domain. |
| `Engine.Decide` | src/runtime/engine.cpp:331-515 | Authorized if and only if some contract and grant authorize the pair; otherwise the verdict of the checks in order, or of the most recently updated covering contract. |
| `Engine.VerdictMeaning` | src/runtime/engine.cpp:331-515 | The layered verdict is authorized exactly when the declarative predicate holds, over the reported contract and grant. |
| `Engine.EvaluatePaths` | src/runtime/engine.cpp:267-329 | The scan yields the best state seen on a supported path between the endpoints, and why not otherwise. |
| `Engine.SelectGrant` | src/runtime/engine.cpp:177-200 | Selects the most recently issued grant of the contract, the greater identity on a tie. |
| `Engine.TryCandidates` | src/runtime/engine.cpp:434-493 | Candidates are tried most recently updated first; the first that passes decides, else the first one's failure is reported. |
| `Engine.Resolve` | src/runtime/engine.cpp:32-46 | The owner of an endpoint is the first cluster in identity order that declares it. |
| `Verdicts.AdmissionVerdict` | src/runtime/engine.cpp:331-433 | Before any contract is looked at the outcome is not found without an owner, and otherwise the first of a list of faults: equal endpoints, both clusters, both endpoints, expected generations, rules, paths. |
| `Verdicts.ContractVerdict` | src/runtime/engine.cpp:118-175 | A contract is judged by the first fault of its state and then of its consents. |
| `Verdicts.GrantVerdict` | src/runtime/engine.cpp:177-258 | A grant is judged by the first fault of its state, acknowledgements, term, digest, bindings, lease and capacity. |
| `Verdicts.PathVerdict` | src/runtime/engine.cpp:267-329 | A path that is up decides, then one that is degraded; without either the pair is unknown, unsupported or partitioned. |
| `Verdicts.CandidateExactly` | src/runtime/engine.cpp:434-455 | A contract is looked at exactly when it is between the two endpoints, in either order. |
| `Verdicts.LatestIsLast` | src/runtime/engine.cpp:177-200 | The grant that is judged was issued last, and has the greatest identity of those issued at once. |
| `Verdicts.FirstWasUpdatedLast` | src/runtime/engine.cpp:434-455 | The contract tried first was updated last, and has the least identity of those updated at once. |
| `Verdicts.OwnerIsFirst` | src/runtime/engine.cpp:32-46 | An endpoint that several clusters declare belongs to the first of them in byte order. |
| `Reference.EngineIsReferenceOnLatest` | tests/differential/reference_model.hpp:46-237 | Where no endpoint has two owners and the contracts both sides accepted for the queried pair are between its owners, the engine authorizes over exactly those grants the reference authorizes that are the latest of their contract; other contracts may be anything. |
| `Reference.EngineEqualsReference` | tests/differential/reference_model.hpp:46-237 | With at most one grant per contract the two verdicts coincide. |
| `Wal.TornTail` | src/store/wal.cpp:191-281 | Of a log built by appends with increasing sequences and cut anywhere, the scan visits exactly the records wholly inside the cut, stops at their end, and reports damage exactly off a record boundary. |
| `Wal.OpenAfterCut` | src/store/wal.cpp:146-315 | Opening a file cut at or past its header leaves exactly the file of the whole records. |
| `Wal.OpenAgain` | src/store/wal.cpp:146-315 | For arbitrary bytes a second open after a successful one visits the same records, changes nothing and has no incident. |
| `Wal.RecordReadsBack` | src/store/wal.cpp:317-361 | An appended record is read back, whatever follows it. |
| `Wal.TornRecordIsDamaged` | src/store/wal.cpp:192-254 | A record cut short is never taken for a record, for any checksum function. |
| `Wal.HeaderChecks` | src/store/wal.cpp:84-120 | A written file header passes its own checks. |
| `ExactBytes.IntactIsWritten` | src/store/wal.cpp:191-281 | The scan takes a record only from the very bytes an append writes for it, and only in increasing sequence. |
| `ExactBytes.RecordOnDisk` | src/store/wal.cpp:317-361 | A record on disk, byte by byte. |
| `ExactBytes.LogHeaderOnDisk` | src/store/wal.cpp:84-97 | The header of a log on disk, byte by byte. |
| `ExactBytes.LogHeaderExactly` | src/store/wal.cpp:99-120 | A log is opened exactly when it begins with the magic number, version 1, no flags, the header size and the checksum of its first 56 bytes. |
| `WalFiles.ScanLog` | src/store/wal.cpp:191-281 | The scan loop computes the specified scan, with its visitor and its bounds. |
| `WalFiles.LogFile.Append` | src/store/wal.cpp:317-361 | Appends the whole record or nothing, and the counters describe the file. |
| `WalFiles.LogFile.Reset` | src/store/wal.cpp:363-376 | Leaves only a header; the last sequence is kept. |
| `Snapshots.SnapshotReadsBack` | src/store/snapshot.cpp:55-142 | Every encoded snapshot passes its own checksum and digest checks and holds what was saved. |
| `ExactBytes.LoadedIsSaved` | src/store/snapshot.cpp:84-142 | A snapshot is taken only if it is the very file written around its payload and metadata, and its registry has the digest it names. |
| `ExactBytes.SnapshotOnDisk` | src/store/snapshot.cpp:55-82 | A snapshot on disk, byte by byte. |
| `StoreRuns.ReplayTransparent` | src/store/durable_store.cpp:12-179 | After any history of appends, incidents, compactions of the folded state, stops that cut the log anywhere past its header and starts over what is left, reopening yields exactly the fold of all surviving mutations and the last term set, with no damage found. |
| `StoreRuns.AllSurvive` | src/store/durable_store.cpp:12-179 | If no stop cut a record, every mutation ever appended survives. |
| `StoreRuns.ReopenTorn` | src/store/durable_store.cpp:12-122 | After such a history and one more cut, reopening yields the fold of a prefix of the surviving mutations that has at least those of the last compaction, and reports damage exactly off a record boundary. |
| `StoreRuns.HistoryTracks` | src/store/durable_store.cpp:12-179 | At every point of a history the snapshot holds the fold of a beginning of the mutations and the log exactly the rest. |
| `StoreRuns.CompactTracks` | src/store/durable_store.cpp:166-179 | Compaction does not change what a reopening would rebuild. |
| `StoreRuns.AppendFollows` | src/store/durable_store.cpp:124-138 | An append changes it by exactly the mutation. |
| `StoreFormats.FormatReadsBack` | src/store/mutation.cpp:52-195 | The format of the repository has what these theorems ask: mutations, snapshots and terms read back. |
| `StoreFormats.StoreIsTransparent` | src/store/durable_store.cpp:12-179 | Transparency of the store under that format. |
| `StoreFormats.ReachedIsComplete` | src/store/mutation.cpp:197-308 | Whatever complete mutations fold to can be saved, as far as its records go. |
| `ServedTerms.TermsRise` | src/store/durable_store.cpp:45-122 | Over any sequence of starts, appends of any payload, compactions, crashes between saving and emptying, and torn unacknowledged writes, a start serves a greater term than the one before if and only if that one was below the largest 64-bit number, and the same again otherwise. |
| `StoreFormats.ServedTermsRise` | src/store/durable_store.cpp:45-122 | The same under the repository's own format, with no hypothesis left. |
| `StoreFormats.LargestTermTwice` | src/runtime/coordinator.cpp:73-90 | A history that serves the largest number twice. |
| `ServedTerms.HighTermNeedsCompaction` | src/store/mutation.cpp:178-190 | A start that serves a term above 2^62 writes a record that replay refuses: the next start succeeds only after a compaction has emptied the log. |
| `ServedTerms.FindsServedTerm` | src/runtime/coordinator.cpp:73-90 | Recovery finds the last served term. |
| `ServedTerms.VisitTerm` | src/store/durable_store.cpp:45-85 | The term recovery keeps is the one the record's bytes set. |
| `Mutations.MutationReadsBack` | src/store/mutation.cpp:52-195 | A complete mutation of any of the fifteen kinds is read back, whatever follows it. |
| `Mutations.MutationInjective` | src/store/mutation.cpp:52-195 | No encoding of a mutation is a prefix of another's. |
| `Mutations.ApplyKeepsComplete` | src/store/mutation.cpp:197-308 | Replaying complete mutations only reaches registries that can be written and read back. |
| `ReplayEffects.ApplyEffect` | src/store/mutation.cpp:261-308 | For all fifteen kinds: a mutation that applies leaves its record under its identity, or nothing there if it erases, adds its audit line, and leaves every other record and the trail as they were. |
| `ReplayEffects.AppliesExactly` | src/store/mutation.cpp:197-308 | A mutation applies exactly when its record has what the store asks of it and a place within the bounds, or is there to be erased. |
| `ReplayEffects.ReplayHolds` | src/store/durable_store.cpp:45-85 | Replaying a log from any state leaves under every identity the record of the last mutation that names it, none if that erased it, what was there if none names it, and the audit lines in order. |
| `ReplayEffects.HeldIsUnique` | src/store/mutation.cpp:261-308 | That fixes the whole registry. |
| `ReplayEffects.ReplayTerm` | src/store/durable_store.cpp:45-85 | The term and incarnation are the last ones set. |
| `ReplayEffects.ReopenedHolds` | src/store/durable_store.cpp:12-179 | After any history with compactions and torn stops a reopened store holds exactly what the surviving mutations say. |
| `ReplayEffects.ReferencesResolve` | src/store/mutation.cpp:236-254 | In a log that replays from nothing, the contract of a grant, the grant of a reservation and whatever is erased was put before and not erased since. |
| `ReplayEffects.OperationWrites` | src/store/durable_store.cpp:124-179 | A mutation is written as a record of kind 1 and an incident as one of kind 4, each under the next sequence; a compaction replaces the snapshot and empties the log. |
| `RegistryCodec.EncodeRegistry` | src/model/canonical.cpp:995-1176 | A complete registry is read back whole, records rebuilt through bounded insertion, with nothing after it. |
| `RegistryCodec.RegistryInjective` | src/model/canonical.cpp:995-1176 | Different registries have different encodings. |
| `ExactBytes.PreambleOnDisk` | src/model/canonical.cpp:995-1010 | The encoding of a registry begins with version 1 and whether its trail is included. |
| `Canonical.EncodeCluster` | src/model/canonical.cpp:255-377 | A complete cluster with its endpoints in identity order is read back, whatever follows it. |
| `Canonical.EncodeEndpoints` | src/model/canonical.cpp:105-171 | The endpoint list is read back; a repeated identity would be refused. |
| `Canonical.EncodeLink` | src/model/canonical.cpp:379-445 | Round trip of links. |
| `Canonical.EncodePath` | src/model/canonical.cpp:447-518 | Round trip of paths. |
| `Canonical.EncodePolicy` | src/model/canonical.cpp:520-630 | Round trip of policy rules, empty wildcards included. |
| `Canonical.EncodeContract` | src/model/canonical.cpp:632-739 | Round trip of contracts with optional consents. |
| `Canonical.EncodeGrant` | src/model/canonical.cpp:741-870 | Round trip of grants. |
| `Canonical.EncodeReservation` | src/model/canonical.cpp:872-938 | Round trip of reservations. |
| `Canonical.EncodeAudit` | src/model/canonical.cpp:940-993 | Round trip of audit lines. |
| `Canonical.EncodeTerms` | src/model/terms.cpp:50-150 | Round trip of contract terms with any trailing bytes. |
| `Canonical.TermsInjective` | src/model/terms.cpp:50-150 | No encoding of terms is a prefix of another's. |
| `Canonical.DigestInjective` | src/model/terms.cpp:8-12 | With a hash that does not collide on the two encodings, digests are equal exactly when the terms are. |
| `Wire.PutInt` | src/core/bytes.cpp:12-30 | Big-endian integers of any width are read back. |
| `Wire.PutBlob` | src/core/bytes.cpp:48-51 | Bounded UTF-8 text is read back. |
| `Utf8Text.TextIsValid` | src/core/utf8.cpp:7-72 | The UTF-8 encoding of any sequence of Unicode scalar values is let through. |
| `Utf8Text.ValidIsText` | src/core/utf8.cpp:7-72 | Nothing else is. |
| `Utf8Text.NameExactly` | include/icf/core/ids.hpp:49-95 | A name is 1 to 96 letters, digits, dots, underscores and dashes and begins with a letter or digit. |
| `Utf8Text.ScopeExactly` | include/icf/core/ids.hpp:49-95 | A scope is 1 to 192 of these, slashes, colons and at signs. |
| `Wire.MapRoundTrip` | src/model/canonical.cpp:995-1176 | A map written record by record in any order of its keys and stored one by one is rebuilt. |
| `ByteBuffers.ByteWriter.PutBytes` | src/core/bytes.cpp:12-17 | The shifting loop appends exactly the big-endian bytes. |
| `ByteBuffers.ByteWriter.Blob` | src/core/bytes.cpp:48-51 | What is appended is read back as the text, whatever is appended later. |
| `ByteBuffers.ByteReader.TakeBytes` | src/core/bytes.cpp:19-30 | The reading loop yields the integer and advances past it, or consumes nothing. |
| `ByteBuffers.ByteReader.TakeString` | src/core/bytes.cpp:125-142 | Reads a bounded valid UTF-8 field or names what is wrong with it. |
| `Transport.StreamDelivered` | src/wire/frame.cpp:202-256 | For every list of valid frames under a fixed key and every pattern of arrivals and requests, the parser never errs, yields exactly those frames in order and ends empty. |
| `Transport.EndToEnd` | src/net/reactor.cpp:40-109 | Whatever a connection handed to the socket, delivered in any pieces, becomes the first of the frames it accepted; all of them once nothing is unsent. |
| `Transport.FrameReadsBack` | src/wire/frame.cpp:168-197 | A whole frame is yielded, whatever follows it. |
| `Transport.PartialWaits` | src/wire/frame.cpp:216-256 | A partial frame is waited for, never misread. |
| `ExactBytes.GotIsSent` | src/wire/frame.cpp:216-256 | The parser yields a frame only from the very bytes the writer makes of it: header, checksums and, on a signed channel, the authentication code of these bytes under the channel's key. |
| `ExactBytes.FrameOnWire` | src/wire/frame.cpp:121-197 | A frame on the wire, byte by byte. |
| `Transport.RefusedExactly` | src/wire/frame.cpp:202-214 | For every valid stream, a receiver that asks until it waits before each read of at most n bytes is never refused if and only if, for every frame, all but its last byte and n bytes more, or the rest of the stream if that is less, fit one largest frame. |
| `Transport.LargestFramesRefused` | src/wire/frame.cpp:202-214 | Two signed frames of the largest size are such a stream that is refused, two bytes at a time. |
| `Transport.BacklogRefusedExactly` | src/net/reactor.cpp:111-132 | Whatever its frames, a backlog is taken whole if with the buffered bytes it fits one largest frame, and otherwise refused. |
| `Transport.FrameParser.Fill` | src/net/reactor.cpp:111-132 | For any behaviour of the socket, call by call: the loop leaves the specified buffer and outcome, without asking for a frame in between. |
| `Transport.FrameParser.Take` | src/wire/frame.cpp:216-256 | One request of the receiver on the parser's buffer. |
| `Transport.Connection.QueueFrame` | src/net/reactor.cpp:40-72 | Accepts the frame or names the first violated bound; bytes sent plus bytes queued are always the accepted frames, and `queued_bytes_` the unsent ones. |
| `Transport.Connection.Flush` | src/net/reactor.cpp:86-109 | For any behaviour of the socket, call by call: how many bytes of the queue are handed over, which outcome is returned, and that sent plus queued bytes stay the accepted frames. |
| `Transport.WillingSocketTakesAll` | src/net/reactor.cpp:86-109 | A socket that takes what it is offered, once per queued frame, empties the queue. |
| `Timestamps.PrintParse` | src/core/time.cpp:88-191 | Every instant from -9223372036 seconds up to the 64-bit maximum is read back from its printed form; earlier ones are refused as an overflow. |
| `Timestamps.ParsePrint` | src/core/time.cpp:88-191 | A text that was read into a 64-bit instant is what that instant prints as if and only if it has nine fractional digits, no leap second and a date that exists. |
| `Timestamps.DateRoundTrip` | src/core/time.cpp:170-179 | A date comes back from its day number if and only if it exists in the Gregorian calendar. |
| `Timestamps.CivilIsCalendar` | src/core/time.cpp:20-32 | Every day number is a date that exists. |
| `Timestamps.CivilRoundTrip` | src/core/time.cpp:20-32 | Every day number comes back from its calendar date. |
| `Calendars.FirstDay` | src/core/time.cpp:20-32 | Day 0 is 1 January 1970. |
| `Calendars.DayFollows` | src/core/time.cpp:20-32 | Every day number is followed by the number of the next day, as the lengths of the months say. |
| `Calendars.CalendarIsFixed` | src/core/time.cpp:20-32 | These two facts fix the date of every day number, past and future. |
| `Calendars.SecondFollows` | src/core/time.cpp:88-111 | A second later the clock shows the next second, and midnight begins the next day. |
| `Calendars.FirstSecond` | src/core/time.cpp:88-111 | The nanoseconds of the first second of 1970 are shown as its fraction. |
| `Calendars.ClockIsFixed` | src/core/time.cpp:88-111 | Together with the first second of 1970 this fixes date and clock of every instant. |
| `Calendars.PrintShows` | src/core/time.cpp:88-111 | The printed text shows each field of date and clock as a decimal in its place, between its separators. |
| `Calendars.ParsesExactly` | src/core/time.cpp:113-169 | A text is read exactly when it has that form, with no fraction or one to nine digits of it, and each field is in its range; the fields read are the numbers shown. |
| `Calendars.ReadsMoment` | src/core/time.cpp:170-191 | A date that exists and a second below sixty are read as the instant with that date and clock. |
| `Timestamps.YearOfEraExact` | src/core/time.cpp:20-32 | The closed formula for the year of an era is exact for all 146097 days. |
| `Timestamps.ReadUint` | src/core/time.cpp:118-132 | The digit loop reads a decimal field or reports a character that is not a digit. |
| `Timestamps.CountDigits` | src/core/time.cpp:148-154 | The scan finds the run of fractional digits. |

## Left out

- Observer sessions, version and capability negotiation, and the list and show queries: they hold no authority and would only add easy members.
- Messages from the coordinator to agents are not recorded: agents may receive anything at any time, which covers every order, loss and forgery of them.
- A peer that claims the identity of another cluster: every connection belongs to one agent process, as the channel keys are meant to ensure.
- A store append that fails inside a handler: the source then leaves the handler with an error; the model covers the process stopping at any point between steps, not a handler that continues half-done.
- Audit lines written by handlers, but for those of fence plans and of `fence_cluster` (which can end a handler early when the trail is full), notes, provenance, revisions and last-seen times in the runtime; the codec carries them all.
- Effects.ReincarnationCutsOff: says nothing of store writes, which the source makes between the fence and the new session and whose failure ends the handler.
- A stop between saving a snapshot and emptying the log is a step of the histories of served terms only: the old log replayed over the new snapshot may refuse an audit line, and then the store does not open.
- Path states are recomputed as part of editing the topology, which the protocol model allows to be anything; `recompute_path_states` itself is not modelled.
- Administrative cluster upsert and deletion, and deletion of links, paths and policies, as protocol steps: they overwrite or orphan records and carry no invariant of their own.
- The endpoint vector, kept sorted and free of duplicates by `put_cluster`, is a map; binary search in it is lookup. When several endpoints are wrong in different ways the reported outcome may differ from the source's, which depends on their order.
- The record codecs, snapshots and the store are functions on values: a writer's growing buffer and a reader's offset are modelled for the primitive fields only, and `DurableStore` is not a class because the canonical order of map keys is specified, not computed.
- The loops of the remaining coordinator and agent handlers (report, withdraw, prepare, retry, re-evaluation) are stated as functions on the state, not as methods.
- Closing a connection, switching signing on during a handshake, and a send that reports more than it was given.
- Timestamps.PrintParse: for a text whose fraction pushes the last representable second past the 64-bit maximum the model reads a larger number, where the source's addition would overflow; no printed instant is such a text.
- SHA-256, HMAC and CRC32C internals, random identities, sockets, polling, timers and file system calls.
