/** The format the repository's store uses has what the store's theorems ask of one: its codecs and
    snapshots read back, and it tells terms from other mutations. */
module StoreFormats {
  import opened Model
  import opened Wire
  import opened Canonical
  import opened RegistryCodec
  import opened Mutations
  import opened Wal
  import opened Snapshots
  import opened Stores
  import StoreRuns
  import ServedTerms

  /** The checksum and `Registry::digest`. */
  datatype Hashes = Hashes(crc: Checksum, digest: Registry -> Digest)

  ghost function Encode(m: Mutation): Option<Bytes> {
    if CompleteMutation(m) then Some(EncodeMutation(m, [])) else None
  }

  /** A snapshot is written for a complete registry whose encoding fits. */
  ghost function Save(h: Hashes, m: Meta, r: Registry): Option<Bytes> {
    if CompleteRegistry(r) && FitsMeta(m.(stateDigest := h.digest(r))) then
      match EncodeSnapshot(h.crc, h.digest, m, r)
      case Success(b) => Some(b)
      case Failure(_) => None
    else None
  }

  function Load(h: Hashes, b: Bytes): Result<Recovery> {
    var x :- DecodeSnapshot(h.crc, h.digest, b);
    Success(Recovery(x.registry, x.meta.term, x.meta.incarnation))
  }

  ghost function FormatOf(h: Hashes): Format {
    Format(h.crc, m => Encode(m), b => DecodeMutation(b), (r, m) => Apply(r, m), (m, r) => Save(h, m, r),
           b => Load(h, b))
  }

  lemma EncodedReadsBack(m: Mutation)
    requires Encode(m).Some?
    ensures DecodeMutation(Encode(m).value) == Success((m, []))
  {
    MutationReadsBack(m, []);
  }

  lemma LoadsSnapshot(h: Hashes, b: Bytes, x: Snapshot)
    requires DecodeSnapshot(h.crc, h.digest, b) == Success(x)
    ensures Load(h, b) == Success(Recovery(x.registry, x.meta.term, x.meta.incarnation))
  {
  }

  lemma SavedReadsBack(h: Hashes, m: Meta, r: Registry)
    requires Save(h, m, r).Some?
    ensures Load(h, Save(h, m, r).value) == Success(Recovery(r, m.term, m.incarnation))
  {
    SnapshotReadsBack(h.crc, h.digest, m, r);
    LoadsSnapshot(h, Save(h, m, r).value, Snapshot(m.(stateDigest := h.digest(r)), r));
  }

  lemma OtherKinds(kind: nat, b: Bytes)
    requires 1 <= kind <= 14 && DecodePayload(kind, b).Success?
    ensures !DecodePayload(kind, b).value.0.MetaSet?
  {
  }

  lemma MutationIsReadAs(b: Bytes)
    requires DecodeMutation(b).Success?
    ensures ServedTerms.ReadAs(b, DecodeMutation(b).value.0)
  {
    var kind, rest := TakeU16(b).value.0, TakeU16(b).value.1;
    if kind != 15 {
      OtherKinds(kind, rest);
    } else {
      forall t: nat ensures ServedTerms.TermIn(t, rest) == DecodeMutation(b).value.0.term <= MAX_GENERATION {
        ServedTerms.MetaTerm(rest, t);
      }
    }
  }

  lemma FormatReadsMutations(h: Hashes)
    ensures MutationsReadBack(FormatOf(h))
  {
    forall m | FormatOf(h).encode(m).Some? ensures FormatOf(h).decode(FormatOf(h).encode(m).value) == Success((m, [])) {
      EncodedReadsBack(m);
    }
  }

  lemma FormatReadsSnapshots(h: Hashes)
    ensures SnapshotsReadBack(FormatOf(h))
  {
    forall x, r | FormatOf(h).save(x, r).Some?
      ensures FormatOf(h).load(FormatOf(h).save(x, r).value) == Success(Recovery(r, x.term, x.incarnation))
    {
      SavedReadsBack(h, x, r);
    }
  }

  lemma FormatReadsTerms(h: Hashes)
    ensures ServedTerms.TermsReadBack(FormatOf(h))
  {
    forall b | FormatOf(h).decode(b).Success? ensures ServedTerms.ReadAs(b, FormatOf(h).decode(b).value.0) {
      MutationIsReadAs(b);
    }
  }

  /** All the store asks of its format. */
  lemma FormatReadsBack(h: Hashes)
    ensures MutationsReadBack(FormatOf(h)) && SnapshotsReadBack(FormatOf(h)) && ServedTerms.TermsReadBack(FormatOf(h))
  {
    FormatReadsMutations(h);
    FormatReadsSnapshots(h);
    FormatReadsTerms(h);
  }

  // ---- what a history reaches can be saved ----

  predicate AllComplete(ms: seq<Mutation>) {
    forall i | 0 <= i < |ms| :: CompleteMutation(ms[i])
  }

  lemma ApplyKeeps(h: Hashes)
    ensures StoreRuns.Keeps(FormatOf(h), CompleteRegistry, CompleteMutation)
  {
    forall r, m | CompleteRegistry(r) && CompleteMutation(m) && Apply(r, m).Success?
      ensures CompleteRegistry(Apply(r, m).value) {
      ApplyKeepsComplete(r, m);
    }
  }

  /** Replaying complete mutations only reaches registries that can be written and read back. */
  lemma ReachedIsComplete(h: Hashes, ms: seq<Mutation>)
    requires AllComplete(ms) && ReplayAll(FormatOf(h), FRESH, ms).Success?
    ensures CompleteRegistry(ReplayAll(FormatOf(h), FRESH, ms).value.registry)
  {
    ApplyKeeps(h);
    EmptyIsComplete();
    StoreRuns.ReplayKeeps(FormatOf(h), CompleteRegistry, CompleteMutation, FRESH, ms);
  }

  lemma EmptyIsComplete()
    ensures CompleteRegistry(EMPTY_REGISTRY)
  {
  }

  // ---- the theorems for the repository's format ----

  /** Reopening rebuilds the fold of all surviving mutations. */
  lemma StoreIsTransparent(h: Hashes, stores: seq<Store>, ops: seq<StoreRuns.Operation>, stream: Uuid)
    requires StoreRuns.IsHistory(FormatOf(h), stores, ops)
    ensures var f := FormatOf(h);
            var o := OpenStore(f, FilesOf(f, stores[|ops|]), stream);
            && o.Success? && !o.value.scanned.damaged
            && ReplayAll(f, FRESH, StoreRuns.Surviving(stores, ops)) == Success(o.value.scanned.state)
  {
    FormatReadsBack(h);
    StoreRuns.ReplayTransparent(FormatOf(h), stores, ops, stream);
  }

  /** Served terms strictly increase short of the largest 64-bit number. */
  lemma ServedTermsRise(h: Hashes, lives: seq<ServedTerms.Life>, steps: seq<ServedTerms.LifeStep>, i: nat, k: nat)
    requires ServedTerms.IsLife(FormatOf(h), lives, steps) && i < |lives| && 0 < k < |lives[i].served|
    ensures var served := lives[i].served; served[k - 1] < served[k] <==> served[k - 1] < UINT64_MAX
  {
    FormatReadsBack(h);
    ServedTerms.TermsRise(FormatOf(h), lives, steps, i, k);
  }

  // A snapshot of an empty registry fits, so the history that serves the largest term twice exists.

  lemma GroupOfNone<T>(put: (T, Bytes) --> Bytes, take: Bytes -> Parsed<T>, rest: Bytes)
    requires RoundTrips([], put, take)
    ensures |PutGroup([], put, take, rest)| == 4 + |rest|
  {
    assert TakeU32(PutGroup([], put, take, rest)) == Success((0, rest));
  }

  lemma NoClusters(r: Registry, rest: Bytes)
    requires r.clusters == map[]
    ensures |EncodeClusters(map[], r, rest)| == 4 + |rest|
  {
    GroupOfNone(EncodeCluster, DecodeCluster, rest);
  }

  lemma NoLinks(r: Registry, rest: Bytes)
    requires r.links == map[]
    ensures |EncodeLinks(map[], r, rest)| == 4 + |rest|
  {
    GroupOfNone(EncodeLink, DecodeLink, rest);
  }

  lemma NoPaths(r: Registry, rest: Bytes)
    requires r.paths == map[]
    ensures |EncodePaths(map[], r, rest)| == 4 + |rest|
  {
    GroupOfNone(EncodePath, DecodePath, rest);
  }

  lemma NoPolicies(r: Registry, rest: Bytes)
    requires r.policies == map[]
    ensures |EncodePolicies(map[], r, rest)| == 4 + |rest|
  {
    GroupOfNone(EncodePolicy, DecodePolicy, rest);
  }

  lemma NoContracts(r: Registry, rest: Bytes)
    requires r.contracts == map[]
    ensures |EncodeContracts(map[], r, rest)| == 4 + |rest|
  {
    GroupOfNone(EncodeContract, DecodeContract, rest);
  }

  lemma NoGrants(r: Registry, rest: Bytes)
    requires r.grants == map[]
    ensures |EncodeGrants(map[], r, rest)| == 4 + |rest|
  {
    GroupOfNone(EncodeGrant, DecodeGrant, rest);
  }

  lemma NoReservations(r: Registry, rest: Bytes)
    requires r.reservations == map[]
    ensures |EncodeReservations(map[], r, rest)| == 4 + |rest|
  {
    GroupOfNone(EncodeReservation, DecodeReservation, rest);
  }

  lemma NoTrail(r: Registry, rest: Bytes)
    requires r.audit == []
    ensures |EncodeTrail([], r, rest)| == 4 + |rest|
  {
    GroupOfNone(EncodeAudit, DecodeAudit, rest);
  }

  lemma NoTopology(rest: Bytes)
    ensures |EncodeTopology(EMPTY_REGISTRY, rest)| == 16 + |rest|
  {
    var policies := EncodePolicies(map[], EMPTY_REGISTRY, rest);
    var paths := EncodePaths(map[], EMPTY_REGISTRY, policies);
    NoPolicies(EMPTY_REGISTRY, rest);
    NoPaths(EMPTY_REGISTRY, policies);
    NoLinks(EMPTY_REGISTRY, paths);
    NoClusters(EMPTY_REGISTRY, EncodeLinks(map[], EMPTY_REGISTRY, paths));
  }

  lemma NoAuthority(rest: Bytes)
    ensures |EncodeAuthority(EMPTY_REGISTRY, true, rest)| == 16 + |rest|
  {
    var trail := EncodeTrail([], EMPTY_REGISTRY, rest);
    var reservations := EncodeReservations(map[], EMPTY_REGISTRY, trail);
    NoTrail(EMPTY_REGISTRY, rest);
    NoReservations(EMPTY_REGISTRY, trail);
    NoGrants(EMPTY_REGISTRY, reservations);
    NoContracts(EMPTY_REGISTRY, EncodeGrants(map[], EMPTY_REGISTRY, reservations));
  }

  lemma EmptySize()
    ensures |EncodeRegistry(EMPTY_REGISTRY, true)| == 35
  {
    NoAuthority([]);
    NoTopology(EncodeAuthority(EMPTY_REGISTRY, true, []));
    var body := EncodeBody(EMPTY_REGISTRY, true, []);
    assert TakeU16(EncodePreamble(true, body)) == Success((MODEL_ENCODING_VERSION, PutBool(true, body)));
    assert TakeU8(PutBool(true, body)) == Success((1, body));
  }

  lemma EmptyEncodes(h: Hashes, m: Meta)
    ensures CompleteRegistry(EMPTY_REGISTRY) && EncodeSnapshot(h.crc, h.digest, m, EMPTY_REGISTRY).Success?
  {
    EmptyIsComplete();
    EmptySize();
  }

  lemma EmptySaves(h: Hashes, m: Meta)
    requires FitsMeta(m.(stateDigest := h.digest(EMPTY_REGISTRY)))
    ensures FormatOf(h).save(m, EMPTY_REGISTRY).Some?
  {
    EmptyEncodes(h, m);
    assert Save(h, m, EMPTY_REGISTRY).Some?;
  }

  /** The largest term is served twice, under the repository's own format. */
  lemma LargestTermTwice(h: Hashes) returns (lives: seq<ServedTerms.Life>, steps: seq<ServedTerms.LifeStep>)
    requires h.digest(EMPTY_REGISTRY) < U256
    ensures ServedTerms.IsLife(FormatOf(h), lives, steps) && |lives| == 4 && lives[3].served == [UINT64_MAX, UINT64_MAX]
  {
    var below, last := Meta(UINT64_MAX - 1, 1, 0, 0, 0, 0, 0), Meta(UINT64_MAX, 1, 0, 0, 0, 0, 0);
    EmptySaves(h, below);
    EmptySaves(h, last);
    FormatReadsBack(h);
    lives, steps := ServedTerms.LargestServedAgain(FormatOf(h), EMPTY_REGISTRY, below, last);
  }
}
