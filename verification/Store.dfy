/** The durable store (src/store/durable_store.cpp): a snapshot and the log of what happened since.  How a
    mutation and a snapshot are written is a parameter here; `StoreFormat` gives the format the repository
    uses and shows that it has what is asked of one. */
module Stores {
  import opened Model
  import opened Wire
  import opened Mutations
  import opened Wal
  import opened Snapshots

  const KIND_MUTATION := 1
  const KIND_META := 2
  const KIND_INCIDENT := 4
  const UINT64_MAX := 0xFFFF_FFFF_FFFF_FFFF

  /** What recovery rebuilds: the registry and the authority term last recorded. */
  datatype Recovery = Recovery(registry: Registry, term: nat, incarnation: Uuid)

  const FRESH := Recovery(EMPTY_REGISTRY, 0, 0)

  /** How the store writes, reads and replays; `encode` and `save` have a value for whatever is complete and
      within bounds. */
  datatype Format = Format(
    crc: Checksum, encode: Mutation -> Option<Bytes>, decode: Bytes -> Parsed<Mutation>,
    apply: (Registry, Mutation) -> Result<Registry>, save: (Meta, Registry) -> Option<Bytes>,
    load: Bytes -> Result<Recovery>)

  ghost predicate MutationsReadBack(f: Format) {
    forall m :: f.encode(m).Some? ==> f.decode(f.encode(m).value) == Success((m, []))
  }

  ghost predicate SnapshotsReadBack(f: Format) {
    forall x, r :: f.save(x, r).Some? ==> f.load(f.save(x, r).value) == Success(Recovery(r, x.term, x.incarnation))
  }

  // ---- replay ----

  /** The effect of one mutation on the recovered state. */
  function Replay(f: Format, s: Recovery, m: Mutation): Result<Recovery> {
    if m.MetaSet? then Success(s.(term := m.term, incarnation := m.incarnation))
    else
      var r :- f.apply(s.registry, m);
      Success(s.(registry := r))
  }

  /** The visitor of `DurableStore::open`. */
  function VisitRecord(f: Format, s: Recovery, record: Record): Result<Recovery> {
    if record.kind == KIND_MUTATION then
      var (m, rest) :- f.decode(record.payload);
      if rest != [] then Failure(Invalid) else Replay(f, s, m)
    else if record.kind == KIND_META then
      var (m, _) :- DecodeMeta(record.payload);
      Replay(f, s, m)
    else Success(s)
  }

  function Visitor(f: Format): (Recovery, Record) -> Result<Recovery> {
    (s: Recovery, r: Record) => VisitRecord(f, s, r)
  }

  function ReplayAll(f: Format, s: Recovery, ms: seq<Mutation>): Result<Recovery>
    decreases |ms|
  {
    if ms == [] then Success(s)
    else
      var t :- ReplayAll(f, s, ms[..|ms| - 1]);
      Replay(f, t, ms[|ms| - 1])
  }

  lemma {:induction false} VisitExtends<S>(visit: (S, Record) -> Result<S>, s: S, rs: seq<Record>, r: Record)
    ensures Visit(visit, s, rs + [r])
            == match Visit(visit, s, rs) case Success(t) => visit(t, r) case Failure(o) => Failure(o)
    decreases |rs|
  {
    if rs == [] {
      assert rs + [r] == [r] && [r][1..] == [];
    } else {
      assert (rs + [r])[1..] == rs[1..] + [r];
      match visit(s, rs[0])
      case Success(t) => VisitExtends(visit, t, rs[1..], r);
      case Failure(_) =>
    }
  }

  // ---- what is on disk ----

  /** The two files; the log is given by its records, which `LogOf` turns into its bytes. */
  datatype Store = Store(snapshot: Option<Bytes>, stream: Uuid, log: seq<Record>, next: nat)

  datatype Files = Files(snapshot: Option<Bytes>, wal: Option<Bytes>)

  function FilesOf(f: Format, s: Store): Files {
    Files(s.snapshot, Some(LogOf(f.crc, s.stream, s.log)))
  }

  function Base(f: Format, snapshot: Option<Bytes>): Result<Recovery> {
    match snapshot
    case None => Success(FRESH)
    case Some(b) => f.load(b)
  }

  /** `DurableStore::open`: the snapshot, then the log over it. */
  function OpenStore(f: Format, files: Files, stream: Uuid): Result<Opened<Recovery>> {
    var base :- Base(f, files.snapshot);
    Open(f.crc, files.wal, stream, MAX_STORE_RECORDS, Visitor(f), base)
  }

  // ---- operations ----

  /** What `Wal::append` asks of a record. */
  predicate HasRoomFor(f: Format, s: Store, r: Record) {
    && Writable(r) && |s.log| < MAX_STORE_RECORDS
    && |LogOf(f.crc, s.stream, s.log)| + RecordSize(r) <= MAX_STORE_BYTES
  }

  /** `append`, `append_meta` and `append_incident`. */
  function AppendRecord(s: Store, kind: nat, at: nat, payload: Bytes): Store {
    s.(log := s.log + [Record(kind, s.next, at, payload)],
       next := if s.next < UINT64_MAX then s.next + 1 else UINT64_MAX)
  }

  /** The snapshot has replaced the old one; the log is still there. */
  function Saved(s: Store, snapshot: Bytes): Store {
    s.(snapshot := Some(snapshot))
  }

  /** `DurableStore::compact`: save, then reset the log; the next sequence carries on. */
  function Compact(s: Store, snapshot: Bytes, stream: Uuid): Store {
    Saved(s, snapshot).(log := [], stream := stream)
  }

  /** The sequence after the last record, as a process that opens the log computes it. */
  function NextSequence(log: seq<Record>): nat {
    if log == [] then 1
    else if log[|log| - 1].sequence < UINT64_MAX then log[|log| - 1].sequence + 1
    else UINT64_MAX
  }

  /** The store after a stop that left the log cut short, and a start over what was left. */
  function Reopened(f: Format, s: Store, cut: nat, stream: Uuid): Result<Store>
    requires cut <= |LogOf(f.crc, s.stream, s.log)|
  {
    var o :- OpenStore(f, Files(s.snapshot, Some(LogOf(f.crc, s.stream, s.log)[..cut])), stream);
    Success(s.(log := o.scanned.records, next := NextSequence(o.scanned.records)))
  }
}
