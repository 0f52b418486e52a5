/** What replaying a log leaves behind (src/store/mutation.cpp): under every identity the record of the last
    mutation that names it. */
module ReplayEffects {
  import opened Model
  import opened Mutations
  import opened Wal
  import opened Stores
  import opened StoreFormats
  import StoreRuns

  // ---- records by identity ----

  datatype Key =
    | ClusterKey(cluster: Name)
    | LinkKey(link: Name)
    | PathKey(path: Name)
    | PolicyKey(policy: Name)
    | ContractKey(contract: Uuid)
    | GrantKey(grant: Uuid)
    | ReservationKey(reservation: Uuid)

  datatype Entry =
    | ClusterEntry(cluster: Cluster)
    | LinkEntry(link: Link)
    | PathEntry(path: Path)
    | PolicyEntry(policy: PolicyRule)
    | ContractEntry(contract: Contract)
    | GrantEntry(grant: Grant)
    | ReservationEntry(reservation: Reservation)

  /** The record under an identity. */
  function Find(r: Registry, k: Key): Option<Entry> {
    match k
    case ClusterKey(id) => if id in r.clusters then Some(ClusterEntry(r.clusters[id])) else None
    case LinkKey(id) => if id in r.links then Some(LinkEntry(r.links[id])) else None
    case PathKey(id) => if id in r.paths then Some(PathEntry(r.paths[id])) else None
    case PolicyKey(id) => if id in r.policies then Some(PolicyEntry(r.policies[id])) else None
    case ContractKey(id) => if id in r.contracts then Some(ContractEntry(r.contracts[id])) else None
    case GrantKey(id) => if id in r.grants then Some(GrantEntry(r.grants[id])) else None
    case ReservationKey(id) => if id in r.reservations then Some(ReservationEntry(r.reservations[id])) else None
  }

  ghost predicate SameEntries(r: Registry, s: Registry) {
    forall k :: Find(s, k) == Find(r, k)
  }

  /** A registry is its records and its audit trail. */
  lemma EntriesTell(r: Registry, s: Registry)
    requires SameEntries(r, s) && s.audit == r.audit
    ensures s == r
  {
    EntriesTellTopology(r, s);
    forall id ensures (id in s.contracts <==> id in r.contracts)
      && (id in r.contracts ==> s.contracts[id] == r.contracts[id]) {
      assert Find(s, ContractKey(id)) == Find(r, ContractKey(id));
    }
    forall id ensures (id in s.grants <==> id in r.grants) && (id in r.grants ==> s.grants[id] == r.grants[id]) {
      assert Find(s, GrantKey(id)) == Find(r, GrantKey(id));
    }
    forall id
      ensures id in s.reservations <==> id in r.reservations
      ensures id in r.reservations ==> s.reservations[id] == r.reservations[id]
    {
      assert Find(s, ReservationKey(id)) == Find(r, ReservationKey(id));
    }
    assert s.contracts == r.contracts && s.grants == r.grants && s.reservations == r.reservations;
  }

  lemma EntriesTellTopology(r: Registry, s: Registry)
    requires SameEntries(r, s)
    ensures s.clusters == r.clusters && s.links == r.links && s.paths == r.paths && s.policies == r.policies
  {
    forall id ensures (id in s.clusters <==> id in r.clusters)
      && (id in r.clusters ==> s.clusters[id] == r.clusters[id]) {
      assert Find(s, ClusterKey(id)) == Find(r, ClusterKey(id));
    }
    forall id ensures (id in s.links <==> id in r.links) && (id in r.links ==> s.links[id] == r.links[id]) {
      assert Find(s, LinkKey(id)) == Find(r, LinkKey(id));
    }
    forall id ensures (id in s.paths <==> id in r.paths) && (id in r.paths ==> s.paths[id] == r.paths[id]) {
      assert Find(s, PathKey(id)) == Find(r, PathKey(id));
    }
    forall id ensures (id in s.policies <==> id in r.policies)
      && (id in r.policies ==> s.policies[id] == r.policies[id]) {
      assert Find(s, PolicyKey(id)) == Find(r, PolicyKey(id));
    }
  }

  // ---- one mutation ----

  /** The identity a mutation is about. */
  function Names(m: Mutation): Option<Key> {
    match m
    case OfCluster(_, c) => Some(ClusterKey(c.id))
    case OfLink(_, l) => Some(LinkKey(l.id))
    case OfPath(_, p) => Some(PathKey(p.id))
    case OfPolicy(_, p) => Some(PolicyKey(p.id))
    case OfContract(_, c) => Some(ContractKey(c.id))
    case OfGrant(_, g) => Some(GrantKey(g.id))
    case OfReservation(v) => Some(ReservationKey(v.id))
    case _ => None
  }

  /** What it leaves there: the record it carries, or nothing. */
  function Leaves(m: Mutation): Option<Entry> {
    match m
    case OfCluster(erase, c) => if erase then None else Some(ClusterEntry(c))
    case OfLink(erase, l) => if erase then None else Some(LinkEntry(l))
    case OfPath(erase, p) => if erase then None else Some(PathEntry(p))
    case OfPolicy(erase, p) => if erase then None else Some(PolicyEntry(p))
    case OfContract(erase, c) => if erase then None else Some(ContractEntry(c))
    case OfGrant(erase, g) => if erase then None else Some(GrantEntry(g))
    case OfReservation(v) => Some(ReservationEntry(v))
    case _ => None
  }

  function Lines(m: Mutation): seq<Audit> {
    if m.OfAudit? then [m.audit] else []
  }

  /** The whole effect: the record of the mutation stands, or is gone, under its identity; its line is added to
      the trail; and everything else is as it was. */
  ghost predicate Took(r: Registry, m: Mutation, s: Registry) {
    && s.audit == r.audit + Lines(m)
    && forall k :: Find(s, k) == if Names(m) == Some(k) then Leaves(m) else Find(r, k)
  }

  lemma ClusterTook(r: Registry, m: Mutation, s: Registry)
    requires m.OfCluster?
    requires s == r.(clusters := if m.erase then r.clusters - {m.cluster.id} else r.clusters[m.cluster.id := m.cluster])
    ensures Took(r, m, s)
  {
    forall k ensures Find(s, k) == if Names(m) == Some(k) then Leaves(m) else Find(r, k) {
      if k.ClusterKey? {
        assert k.cluster in s.clusters <==> if k.cluster == m.cluster.id then !m.erase else k.cluster in r.clusters;
      }
    }
  }

  lemma ClusterEffect(r: Registry, m: Mutation)
    requires m.OfCluster? && Apply(r, m).Success?
    ensures Took(r, m, Apply(r, m).value)
  {
    ClusterTook(r, m, Apply(r, m).value);
  }

  lemma LinkTook(r: Registry, m: Mutation, s: Registry)
    requires m.OfLink? && s == r.(links := if m.erase then r.links - {m.link.id} else r.links[m.link.id := m.link])
    ensures Took(r, m, s)
  {
    forall k ensures Find(s, k) == if Names(m) == Some(k) then Leaves(m) else Find(r, k) {
      if k.LinkKey? { assert k.link in s.links <==> if k.link == m.link.id then !m.erase else k.link in r.links; }
    }
  }

  lemma LinkEffect(r: Registry, m: Mutation)
    requires m.OfLink? && Apply(r, m).Success?
    ensures Took(r, m, Apply(r, m).value)
  {
    LinkTook(r, m, Apply(r, m).value);
  }

  lemma PathTook(r: Registry, m: Mutation, s: Registry)
    requires m.OfPath? && s == r.(paths := if m.erase then r.paths - {m.path.id} else r.paths[m.path.id := m.path])
    ensures Took(r, m, s)
  {
    forall k ensures Find(s, k) == if Names(m) == Some(k) then Leaves(m) else Find(r, k) {
      if k.PathKey? { assert k.path in s.paths <==> if k.path == m.path.id then !m.erase else k.path in r.paths; }
    }
  }

  lemma PathEffect(r: Registry, m: Mutation)
    requires m.OfPath? && Apply(r, m).Success?
    ensures Took(r, m, Apply(r, m).value)
  {
    PathTook(r, m, Apply(r, m).value);
  }

  lemma PolicyTook(r: Registry, m: Mutation, s: Registry)
    requires m.OfPolicy?
    requires s == r.(policies := if m.erase then r.policies - {m.policy.id} else r.policies[m.policy.id := m.policy])
    ensures Took(r, m, s)
  {
    forall k ensures Find(s, k) == if Names(m) == Some(k) then Leaves(m) else Find(r, k) {
      if k.PolicyKey? {
        assert k.policy in s.policies <==> if k.policy == m.policy.id then !m.erase else k.policy in r.policies;
      }
    }
  }

  lemma PolicyEffect(r: Registry, m: Mutation)
    requires m.OfPolicy? && Apply(r, m).Success?
    ensures Took(r, m, Apply(r, m).value)
  {
    PolicyTook(r, m, Apply(r, m).value);
  }

  lemma ContractTook(r: Registry, m: Mutation, s: Registry)
    requires m.OfContract?
    requires s == r.(contracts := if m.erase then r.contracts - {m.contract.id}
                     else r.contracts[m.contract.id := m.contract])
    ensures Took(r, m, s)
  {
    forall k ensures Find(s, k) == if Names(m) == Some(k) then Leaves(m) else Find(r, k) {
      if k.ContractKey? {
        assert k.contract in s.contracts <==>
               if k.contract == m.contract.id then !m.erase else k.contract in r.contracts;
      }
    }
  }

  lemma ContractEffect(r: Registry, m: Mutation)
    requires m.OfContract? && Apply(r, m).Success?
    ensures Took(r, m, Apply(r, m).value)
  {
    ContractTook(r, m, Apply(r, m).value);
  }

  lemma GrantTook(r: Registry, m: Mutation, s: Registry)
    requires m.OfGrant?
    requires s == r.(grants := if m.erase then r.grants - {m.grant.id} else r.grants[m.grant.id := m.grant])
    ensures Took(r, m, s)
  {
    forall k ensures Find(s, k) == if Names(m) == Some(k) then Leaves(m) else Find(r, k) {
      if k.GrantKey? {
        assert k.grant in s.grants <==> if k.grant == m.grant.id then !m.erase else k.grant in r.grants;
      }
    }
  }

  lemma GrantEffect(r: Registry, m: Mutation)
    requires m.OfGrant? && Apply(r, m).Success?
    ensures Took(r, m, Apply(r, m).value)
  {
    GrantTook(r, m, Apply(r, m).value);
  }

  lemma ReservationTook(r: Registry, m: Mutation, s: Registry)
    requires m.OfReservation? && s == r.(reservations := r.reservations[m.reservation.id := m.reservation])
    ensures Took(r, m, s)
  {
    forall k ensures Find(s, k) == if Names(m) == Some(k) then Leaves(m) else Find(r, k) {
      if k.ReservationKey? {
        assert k.reservation in s.reservations <==>
               k.reservation == m.reservation.id || k.reservation in r.reservations;
      }
    }
  }

  lemma ReservationEffect(r: Registry, m: Mutation)
    requires m.OfReservation? && Apply(r, m).Success?
    ensures Took(r, m, Apply(r, m).value)
  {
    ReservationTook(r, m, Apply(r, m).value);
  }

  lemma AuditEffect(r: Registry, m: Mutation)
    requires m.OfAudit? && Apply(r, m).Success?
    ensures Took(r, m, Apply(r, m).value)
  {
  }

  lemma ApplyEffect(r: Registry, m: Mutation)
    requires Apply(r, m).Success?
    ensures Took(r, m, Apply(r, m).value)
  {
    match m
    case OfCluster(_, _) => ClusterEffect(r, m);
    case OfLink(_, _) => LinkEffect(r, m);
    case OfPath(_, _) => PathEffect(r, m);
    case OfPolicy(_, _) => PolicyEffect(r, m);
    case OfContract(_, _) => ContractEffect(r, m);
    case OfGrant(_, _) => GrantEffect(r, m);
    case OfReservation(_) => ReservationEffect(r, m);
    case OfAudit(_) => AuditEffect(r, m);
    case MetaSet(_, _) =>
  }

  // ---- what is refused ----

  predicate Place<K, V>(m: map<K, V>, k: K, bound: nat) { k in m || |m| < bound }

  /** What the store asks of a cluster, a link, a path and a rule, and that there is a place for it. */
  predicate FitsTopology(r: Registry, m: Mutation) {
    match m
    case OfCluster(false, c) =>
      && c.id != [] && c.domain != [] && |c.endpoints| <= 4096 && Place(r.clusters, c.id, 1024)
      && forall e <- c.endpoints :: c.endpoints[e].cluster == c.id && c.endpoints[e].reserved <= c.endpoints[e].capacity
    case OfLink(false, l) =>
      l.id != [] && l.a != [] && l.b != [] && l.a != l.b && l.reserved <= l.capacity && Place(r.links, l.id, 65536)
    case OfPath(false, p) => p.id != [] && p.a != [] && p.b != [] && 1 <= |p.hops| <= 16 && Place(r.paths, p.id, 65536)
    case OfPolicy(false, p) => 1 <= |p.id| <= 96 && p.owner != [] && Place(r.policies, p.id, 4096)
    case _ => true
  }

  /** And of a contract, a grant, a reservation and an audit line. */
  predicate FitsRecords(r: Registry, m: Mutation) {
    match m
    case OfContract(false, c) =>
      && c.id != 0 && c.parties.first.cluster != [] && c.parties.second.cluster != []
      && c.parties.first.cluster != c.parties.second.cluster && c.capacity <= 0x1_0000_0000_0000
      && Place(r.contracts, c.id, 65536)
    case OfGrant(false, g) =>
      g.id != 0 && g.contract != 0 && g.contract in r.contracts && g.capacity <= 0x1_0000_0000_0000
        && Place(r.grants, g.id, 131072)
    case OfReservation(v) => v.id != 0 && v.grant in r.grants && Place(r.reservations, v.id, 131072)
    case OfAudit(a) =>
      |r.audit| < 65536 && (r.audit != [] ==> a.sequence == r.audit[|r.audit| - 1].sequence + 1)
    case _ => true
  }

  /** An erase needs a proper identity that is there. */
  predicate Erasable(r: Registry, m: Mutation) {
    match m
    case OfCluster(true, c) => c.id != [] && c.id in r.clusters
    case OfLink(true, l) => l.id != [] && l.id in r.links
    case OfPath(true, p) => p.id != [] && p.id in r.paths
    case OfPolicy(true, p) => p.id != [] && p.id in r.policies
    case OfContract(true, c) => c.id != 0 && c.id in r.contracts
    case OfGrant(true, g) => g.id != 0 && g.id in r.grants
    case _ => true
  }

  /** A mutation is applied exactly when its record fits, or is there to be erased. */
  lemma AppliesExactly(r: Registry, m: Mutation)
    ensures Apply(r, m).Success? <==> FitsTopology(r, m) && FitsRecords(r, m) && Erasable(r, m)
  {
    match m
    case OfCluster(erase, c) => ClusterAppliesExactly(r, erase, c);
    case _ =>
  }

  lemma ClusterAppliesExactly(r: Registry, erase: bool, c: Cluster)
    ensures var m := OfCluster(erase, c);
            Apply(r, m).Success? <==> FitsTopology(r, m) && FitsRecords(r, m) && Erasable(r, m)
  {
  }

  // ---- a whole log ----

  /** The last mutation of the log that names the identity is at `i`. */
  predicate LastNaming(ms: seq<Mutation>, k: Key, i: nat) {
    i < |ms| && Names(ms[i]) == Some(k) && forall j | i < j < |ms| :: Names(ms[j]) != Some(k)
  }

  predicate NeverNamed(ms: seq<Mutation>, k: Key) {
    forall i | 0 <= i < |ms| :: Names(ms[i]) != Some(k)
  }

  /** The audit lines of a log, in order. */
  function Trail(ms: seq<Mutation>): seq<Audit>
    decreases |ms|
  {
    if ms == [] then [] else Trail(ms[..|ms| - 1]) + Lines(ms[|ms| - 1])
  }

  /** The registry holds what the log says, and what it does not mention is as before. */
  ghost predicate Holds(r: Registry, before: Registry, ms: seq<Mutation>) {
    && r.audit == before.audit + Trail(ms)
    && (forall k, i: nat :: LastNaming(ms, k, i) ==> Find(r, k) == Leaves(ms[i]))
    && (forall k :: NeverNamed(ms, k) ==> Find(r, k) == Find(before, k))
  }

  /** An identity is named for the last time somewhere, or never. */
  lemma {:induction false} NamedOrNot(ms: seq<Mutation>, k: Key) returns (i: nat)
    ensures NeverNamed(ms, k) || LastNaming(ms, k, i)
    decreases |ms|
  {
    i := 0;
    if ms != [] {
      if Names(ms[|ms| - 1]) == Some(k) {
        i := |ms| - 1;
      } else {
        i := NamedOrNot(ms[..|ms| - 1], k);
        assert LastNaming(ms[..|ms| - 1], k, i) ==> LastNaming(ms, k, i);
      }
    }
  }

  lemma StepHolds(before: Registry, r: Registry, s: Registry, ms: seq<Mutation>, m: Mutation, all: seq<Mutation>)
    requires Holds(r, before, ms) && Took(r, m, s) && all == ms + [m]
    ensures Holds(s, before, all)
  {
    assert all[..|all| - 1] == ms;
    forall k, i: nat | LastNaming(all, k, i) ensures Find(s, k) == Leaves(all[i]) {
      if i < |ms| {
        assert Names(all[|ms|]) != Some(k);
        assert forall j | i < j < |ms| :: all[j] == ms[j];
        assert LastNaming(ms, k, i);
      }
    }
    forall k | NeverNamed(all, k) ensures Find(s, k) == Find(before, k) {
      assert Names(all[|ms|]) != Some(k);
      assert forall j | 0 <= j < |ms| :: all[j] == ms[j];
      assert NeverNamed(ms, k);
    }
  }

  /** The format replays mutations as `apply_mutation` does. */
  ghost predicate Applies(f: Format) {
    forall r, m :: f.apply(r, m) == Apply(r, m)
  }

  lemma ReplayStep(f: Format, t: Recovery, m: Mutation)
    requires Applies(f) && Replay(f, t, m).Success?
    ensures Took(t.registry, m, Replay(f, t, m).value.registry)
  {
    if !m.MetaSet? {
      assert f.apply(t.registry, m) == Apply(t.registry, m);
      ApplyEffect(t.registry, m);
    }
  }

  /** Replaying a log from any state leaves, under every identity, the record of the last mutation that names
      it, none when that was an erase, and what was there when no mutation names it. */
  lemma {:induction false} ReplayHolds(f: Format, s: Recovery, ms: seq<Mutation>)
    requires Applies(f) && ReplayAll(f, s, ms).Success?
    ensures Holds(ReplayAll(f, s, ms).value.registry, s.registry, ms)
    decreases |ms|
  {
    if ms == [] {
      NothingHolds(s.registry);
    } else {
      var before, m := ms[..|ms| - 1], ms[|ms| - 1];
      ReplayHolds(f, s, before);
      var t := ReplayAll(f, s, before).value;
      ReplayStep(f, t, m);
      StepHolds(s.registry, t.registry, Replay(f, t, m).value.registry, before, m, ms);
    }
  }

  lemma NothingHolds(r: Registry)
    ensures Holds(r, r, [])
  {
  }

  /** A log leaves one registry and no other. */
  lemma HeldIsUnique(r: Registry, s: Registry, before: Registry, ms: seq<Mutation>)
    requires Holds(r, before, ms) && Holds(s, before, ms)
    ensures s == r
  {
    forall k ensures Find(s, k) == Find(r, k) { var i := NamedOrNot(ms, k); }
    EntriesTell(r, s);
  }

  /** The term after a replay is the last one set. */
  lemma {:induction false} ReplayTerm(f: Format, s: Recovery, ms: seq<Mutation>, i: nat)
    requires ReplayAll(f, s, ms).Success? && i < |ms| && ms[i].MetaSet?
    requires forall j | i < j < |ms| :: !ms[j].MetaSet?
    ensures var t := ReplayAll(f, s, ms).value; t.term == ms[i].term && t.incarnation == ms[i].incarnation
    decreases |ms|
  {
    if i < |ms| - 1 { ReplayTerm(f, s, ms[..|ms| - 1], i); }
  }

  // ---- what a log that replays must have said before ----

  /** The record a later one refers to: the contract of a grant, the grant of a reservation. */
  function Needs(m: Mutation): Option<Key> {
    match m
    case OfGrant(erase, g) => if erase then None else Some(ContractKey(g.contract))
    case OfReservation(v) => Some(GrantKey(v.grant))
    case _ => None
  }

  /** An erase needs the record itself. */
  function Erases(m: Mutation): Option<Key> {
    if Leaves(m).None? then Names(m) else None
  }

  lemma AppliedNeeds(r: Registry, m: Mutation)
    requires Apply(r, m).Success?
    ensures Needs(m).Some? ==> Find(r, Needs(m).value).Some?
    ensures Erases(m).Some? ==> Find(r, Erases(m).value).Some?
  {
  }

  lemma {:induction false} ReplayPrefix(f: Format, s: Recovery, ms: seq<Mutation>, i: nat)
    requires ReplayAll(f, s, ms).Success? && i <= |ms|
    ensures ReplayAll(f, s, ms[..i]).Success?
    decreases |ms|
  {
    if i < |ms| {
      ReplayPrefix(f, s, ms[..|ms| - 1], i);
      assert ms[..|ms| - 1][..i] == ms[..i];
    } else {
      assert ms[..i] == ms;
    }
  }

  /** In a log that replays from nothing, what a mutation refers to was put before and not erased since. */
  lemma ReferencesResolve(f: Format, ms: seq<Mutation>, i: nat, k: Key) returns (j: nat)
    requires Applies(f) && ReplayAll(f, FRESH, ms).Success? && i < |ms|
    requires Needs(ms[i]) == Some(k) || Erases(ms[i]) == Some(k)
    ensures j < i && LastNaming(ms[..i], k, j) && Leaves(ms[j]).Some?
  {
    var t := StepOfReplay(f, ms, i);
    NeededIsThere(f, t, ms[i], k);
    ReplayHolds(f, FRESH, ms[..i]);
    j := FoundWasLeft(t.registry, ms[..i], k);
  }

  lemma StepOfReplay(f: Format, ms: seq<Mutation>, i: nat) returns (t: Recovery)
    requires ReplayAll(f, FRESH, ms).Success? && i < |ms|
    ensures ReplayAll(f, FRESH, ms[..i]) == Success(t) && Replay(f, t, ms[i]).Success?
  {
    ReplayPrefix(f, FRESH, ms, i + 1);
    ReplayPrefix(f, FRESH, ms, i);
    assert ms[..i + 1][..i] == ms[..i];
    t := ReplayAll(f, FRESH, ms[..i]).value;
  }

  /** What is there after a replay from nothing was left by the last mutation naming it. */
  lemma FoundWasLeft(r: Registry, ms: seq<Mutation>, k: Key) returns (j: nat)
    requires Holds(r, EMPTY_REGISTRY, ms) && Find(r, k).Some?
    ensures LastNaming(ms, k, j) && Leaves(ms[j]).Some?
  {
    j := NamedOrNot(ms, k);
  }

  lemma NeededIsThere(f: Format, t: Recovery, m: Mutation, k: Key)
    requires Applies(f) && Replay(f, t, m).Success? && (Needs(m) == Some(k) || Erases(m) == Some(k))
    ensures Find(t.registry, k).Some?
  {
    assert f.apply(t.registry, m) == Apply(t.registry, m);
    AppliedNeeds(t.registry, m);
  }

  // ---- the repository's store ----

  lemma FormatApplies(h: Hashes)
    ensures Applies(FormatOf(h))
  {
  }

  /** After any history, with compactions and torn stops, a reopened store holds under every identity the record
      of the last surviving mutation that names it, and no others. */
  lemma ReopenedHolds(h: Hashes, stores: seq<Store>, ops: seq<StoreRuns.Operation>, stream: Uuid)
    requires StoreRuns.IsHistory(FormatOf(h), stores, ops)
    ensures var o := OpenStore(FormatOf(h), FilesOf(FormatOf(h), stores[|ops|]), stream);
            o.Success? && Holds(o.value.scanned.state.registry, EMPTY_REGISTRY, StoreRuns.Surviving(stores, ops))
  {
    StoreIsTransparent(h, stores, ops, stream);
    FormatApplies(h);
    ReplayHolds(FormatOf(h), FRESH, StoreRuns.Surviving(stores, ops));
  }

  /** What an operation adds to the log: a mutation as a record of kind 1, an incident as one of kind 4, each under
      the next sequence number, and a compaction empties it. */
  lemma OperationWrites(f: Format, s: Store, r: Recovery, op: StoreRuns.Operation)
    requires StoreRuns.Succeeds(f, s, r, op) && !op.Reopens?
    ensures var t := StoreRuns.After(f, s, r, op);
            match op
            case Appends(m, at) =>
              t == s.(log := s.log + [Record(1, s.next, at, f.encode(m).value)], next := s.next + 1)
            case Notes(text, at) => t == s.(log := s.log + [Record(4, s.next, at, text)], next := s.next + 1)
            case Compacts(m, stream) => t == Store(f.save(m, r.registry), stream, [], s.next)
  {
  }
}
