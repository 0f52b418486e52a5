/** What a store rebuilds after any history of appends, compactions, torn stops and starts
    (src/store/durable_store.cpp). */
module StoreRuns {
  import opened Model
  import opened Wire
  import opened Mutations
  import opened Wal
  import opened Snapshots
  import opened Stores

  // ---- a log over a snapshot ----

  /** How many of the records are mutations. */
  function Mutating(rs: seq<Record>): nat
    decreases |rs|
  {
    if rs == [] then 0
    else Mutating(rs[..|rs| - 1]) + if rs[|rs| - 1].kind == KIND_MUTATION then 1 else 0
  }

  lemma {:induction false} MutatingPrefix(rs: seq<Record>, k: nat)
    requires k <= |rs|
    ensures Mutating(rs[..k]) <= Mutating(rs)
    decreases |rs|
  {
    if k == |rs| {
      assert rs[..k] == rs;
    } else {
      assert rs[..|rs| - 1][..k] == rs[..k];
      MutatingPrefix(rs[..|rs| - 1], k);
    }
  }

  lemma {:induction false} MutatingExtends(rs: seq<Record>, r: Record)
    ensures Mutating(rs + [r]) == Mutating(rs) + if r.kind == KIND_MUTATION then 1 else 0
  {
    assert (rs + [r])[..|rs|] == rs;
  }

  /** Reading the first `k` records over `base` gives the fold of the first `m` mutations and theirs. */
  ghost predicate Reads(f: Format, base: Recovery, log: seq<Record>, ms: seq<Mutation>, m: nat, k: nat)
    requires k <= |log|
  {
    var n := m + Mutating(log[..k]);
    n <= |ms| && ReplayAll(f, FRESH, ms[..n]).Success?
      && Visit(Visitor(f), base, log[..k]) == ReplayAll(f, FRESH, ms[..n])
  }

  /** The log holds, after the first `m` mutations, exactly the rest of them. */
  ghost predicate Follows(f: Format, base: Recovery, log: seq<Record>, ms: seq<Mutation>, m: nat) {
    m + Mutating(log) == |ms| && forall k: nat | k <= |log| :: Reads(f, base, log, ms, m, k)
  }

  lemma {:induction false} ReplayExtends(f: Format, s: Recovery, ms: seq<Mutation>, m: Mutation)
    ensures ReplayAll(f, s, ms + [m])
            == match ReplayAll(f, s, ms) case Success(t) => Replay(f, t, m) case Failure(o) => Failure(o)
  {
    assert (ms + [m])[..|ms|] == ms;
  }

  lemma {:induction false} FollowsAll(f: Format, base: Recovery, log: seq<Record>, ms: seq<Mutation>, m: nat)
    requires Follows(f, base, log, ms, m)
    ensures ReplayAll(f, FRESH, ms).Success? && Visit(Visitor(f), base, log) == ReplayAll(f, FRESH, ms)
  {
    assert log[..|log|] == log && ms[..|ms|] == ms;
    assert Reads(f, base, log, ms, m, |log|);
  }

  lemma {:induction false} ReadsStay(
      f: Format, base: Recovery, log: seq<Record>, ms: seq<Mutation>, m: nat, k: nat, r: Record, more: seq<Mutation>)
    requires k <= |log| && Reads(f, base, log, ms, m, k)
    ensures Reads(f, base, log + [r], ms + more, m, k)
  {
    assert (log + [r])[..k] == log[..k];
    var n := m + Mutating(log[..k]);
    assert (ms + more)[..n] == ms[..n];
  }

  /** One more record, and the mutations it adds: one, or none. */
  lemma {:induction false} RecordFollows(
      f: Format, base: Recovery, log: seq<Record>, ms: seq<Mutation>, m: nat, r: Record, more: seq<Mutation>)
    requires Follows(f, base, log, ms, m) && |more| == if r.kind == KIND_MUTATION then 1 else 0
    requires ReplayAll(f, FRESH, ms + more).Success?
    requires ReplayAll(f, FRESH, ms + more) == Visit(Visitor(f), base, log + [r])
    ensures Follows(f, base, log + [r], ms + more, m)
  {
    MutatingExtends(log, r);
    forall k: nat | k <= |log| + 1 ensures Reads(f, base, log + [r], ms + more, m, k) {
      if k <= |log| {
        ReadsStay(f, base, log, ms, m, k, r, more);
      } else {
        assert (log + [r])[..k] == log + [r] && (ms + more)[..|ms + more|] == ms + more;
      }
    }
  }

  /** An append adds exactly its mutation to what is rebuilt. */
  lemma {:induction false} AppendFollows(
      f: Format, base: Recovery, log: seq<Record>, ms: seq<Mutation>, m: nat, mutation: Mutation, sequence: nat,
      at: nat)
    requires MutationsReadBack(f) && f.encode(mutation).Some?
    requires Follows(f, base, log, ms, m) && ReplayAll(f, FRESH, ms).Success?
    requires Replay(f, ReplayAll(f, FRESH, ms).value, mutation).Success?
    ensures Follows(f, base, log + [Record(KIND_MUTATION, sequence, at, f.encode(mutation).value)], ms + [mutation], m)
  {
    var r := Record(KIND_MUTATION, sequence, at, f.encode(mutation).value);
    FollowsAll(f, base, log, ms, m);
    VisitExtends(Visitor(f), base, log, r);
    assert VisitRecord(f, ReplayAll(f, FRESH, ms).value, r) == Replay(f, ReplayAll(f, FRESH, ms).value, mutation);
    ReplayExtends(f, FRESH, ms, mutation);
    RecordFollows(f, base, log, ms, m, r, [mutation]);
  }

  lemma {:induction false} IncidentFollows(
      f: Format, base: Recovery, log: seq<Record>, ms: seq<Mutation>, m: nat, text: Bytes, sequence: nat, at: nat)
    requires Follows(f, base, log, ms, m)
    ensures Follows(f, base, log + [Record(KIND_INCIDENT, sequence, at, text)], ms, m)
  {
    var r := Record(KIND_INCIDENT, sequence, at, text);
    FollowsAll(f, base, log, ms, m);
    VisitExtends(Visitor(f), base, log, r);
    assert ms + [] == ms;
    RecordFollows(f, base, log, ms, m, r, []);
  }

  /** A log cut after `k` records holds the mutations up to there. */
  lemma {:induction false} CutFollows(f: Format, base: Recovery, log: seq<Record>, ms: seq<Mutation>, m: nat, k: nat)
    requires Follows(f, base, log, ms, m) && k <= |log|
    ensures m + Mutating(log[..k]) <= |ms| && Follows(f, base, log[..k], ms[..m + Mutating(log[..k])], m)
  {
    var n := m + Mutating(log[..k]);
    assert Reads(f, base, log, ms, m, k);
    forall j: nat | j <= k ensures Reads(f, base, log[..k], ms[..n], m, j) {
      assert Reads(f, base, log, ms, m, j);
      assert log[..k][..j] == log[..j];
      MutatingPrefix(log[..k], j);
      var i := m + Mutating(log[..j]);
      assert ms[..n][..i] == ms[..i];
    }
  }

  lemma {:induction false} FreshFollows(f: Format, ms: seq<Mutation>)
    requires ReplayAll(f, FRESH, ms).Success?
    ensures Follows(f, ReplayAll(f, FRESH, ms).value, [], ms, |ms|)
  {
    var none: seq<Record> := [];
    assert none[..0] == [] && ms[..|ms|] == ms;
  }

  // ---- what replay keeps ----

  /** Applying a mutation that `fits` keeps what is `ok` of the registry. */
  ghost predicate Keeps(f: Format, ok: Registry -> bool, fits: Mutation -> bool) {
    forall r, m :: ok(r) && fits(m) && f.apply(r, m).Success? ==> ok(f.apply(r, m).value)
  }

  lemma {:induction false} ReplayKeeps(
      f: Format, ok: Registry -> bool, fits: Mutation -> bool, s: Recovery, ms: seq<Mutation>)
    requires Keeps(f, ok, fits) && ok(s.registry) && ReplayAll(f, s, ms).Success?
    requires forall i | 0 <= i < |ms| :: fits(ms[i])
    ensures ok(ReplayAll(f, s, ms).value.registry)
    decreases |ms|
  {
    if ms != [] { ReplayKeeps(f, ok, fits, s, ms[..|ms| - 1]); }
  }

  // ---- operations on the store ----

  datatype Operation =
    | Appends(mutation: Mutation, at: nat)
    | Notes(text: Bytes, at: nat)
    | Compacts(meta: Meta, stream: Uuid)
    | Reopens(cut: nat, stream: Uuid)

  /** The operation succeeds: its record fits, the sequence space is not exhausted, a compaction saves the
      folded state with the current term; a stop may leave the log cut anywhere past its header. */
  ghost predicate Succeeds(f: Format, s: Store, r: Recovery, op: Operation) {
    match op
    case Appends(m, at) =>
      && f.encode(m).Some? && Replay(f, r, m).Success? && s.next < UINT64_MAX
      && HasRoomFor(f, s, Record(KIND_MUTATION, s.next, at, f.encode(m).value))
    case Notes(text, at) => s.next < UINT64_MAX && HasRoomFor(f, s, Record(KIND_INCIDENT, s.next, at, text))
    case Compacts(m, stream) =>
      f.save(m, r.registry).Some? && m.term == r.term && m.incarnation == r.incarnation && stream < U128
    case Reopens(cut, _) => WAL_HEADER_SIZE <= cut <= |LogOf(f.crc, s.stream, s.log)|
  }

  ghost function After(f: Format, s: Store, r: Recovery, op: Operation): Store
    requires Succeeds(f, s, r, op)
  {
    match op
    case Appends(m, at) => AppendRecord(s, KIND_MUTATION, at, f.encode(m).value)
    case Notes(text, at) => AppendRecord(s, KIND_INCIDENT, at, text)
    case Compacts(m, stream) => Compact(s, f.save(m, r.registry).value, stream)
    case Reopens(cut, stream) =>
      match Reopened(f, s, cut, stream) case Success(t) => t case Failure(_) => s
  }

  /** The mutations a torn stop loses with the cut records. */
  function Lost(s: Store, cut: nat): nat
    requires cut >= WAL_HEADER_SIZE
  {
    var k := WholeRecords(s.log, cut - WAL_HEADER_SIZE);
    MutatingPrefix(s.log, k);
    Mutating(s.log) - Mutating(s.log[..k])
  }

  function Drop(ms: seq<Mutation>, lost: nat): seq<Mutation> {
    if lost <= |ms| then ms[..|ms| - lost] else []
  }

  /** Every mutation appended, less what torn stops lost. */
  function Surviving(stores: seq<Store>, ops: seq<Operation>): seq<Mutation>
    requires |stores| == |ops| + 1
    decreases |ops|
  {
    if ops == [] then []
    else
      var n := |ops| - 1;
      var before := Surviving(stores[..n + 1], ops[..n]);
      match ops[n]
      case Appends(m, _) => before + [m]
      case Reopens(cut, _) => if cut >= WAL_HEADER_SIZE then Drop(before, Lost(stores[n], cut)) else before
      case _ => before
  }

  /** How many of them the last compaction saved. */
  function SavedCount(stores: seq<Store>, ops: seq<Operation>): nat
    requires |stores| == |ops| + 1
    decreases |ops|
  {
    if ops == [] then 0
    else
      var n := |ops| - 1;
      if ops[n].Compacts? then |Surviving(stores, ops)| else SavedCount(stores[..n + 1], ops[..n])
  }

  /** `stores` are the states of the store while the operations succeed one after the other. */
  ghost predicate IsHistory(f: Format, stores: seq<Store>, ops: seq<Operation>)
    decreases |ops|
  {
    && |stores| == |ops| + 1
    && if ops == [] then stores[0] == Store(None, stores[0].stream, [], 1) && stores[0].stream < U128
       else
         var n := |ops| - 1;
         var r := ReplayAll(f, FRESH, Surviving(stores[..n + 1], ops[..n]));
         && IsHistory(f, stores[..n + 1], ops[..n])
         && r.Success? && Succeeds(f, stores[n], r.value, ops[n])
         && stores[n + 1] == After(f, stores[n], r.value, ops[n])
  }

  // ---- every operation keeps the store in step with its mutations ----

  /** Sequences in the log increase up to the next one to be used. */
  predicate LogOk(s: Store) {
    && s.stream < U128 && |s.log| <= MAX_STORE_RECORDS && Appended(s.log, None) && s.next <= UINT64_MAX
    && (s.log != [] ==> s.log[|s.log| - 1].sequence < s.next)
  }

  /** The snapshot holds the fold of the first `m` mutations, the log the others. */
  ghost predicate Tracks(f: Format, s: Store, ms: seq<Mutation>, m: nat) {
    LogOk(s) && Base(f, s.snapshot).Success? && Follows(f, Base(f, s.snapshot).value, s.log, ms, m)
  }

  lemma {:induction false} AppendKeepsLog(f: Format, s: Store, kind: nat, at: nat, payload: Bytes)
    requires LogOk(s) && HasRoomFor(f, s, Record(kind, s.next, at, payload)) && s.next < UINT64_MAX
    ensures LogOk(AppendRecord(s, kind, at, payload))
  {
  }

  lemma {:induction false} AppendTracks(f: Format, s: Store, ms: seq<Mutation>, m: nat, op: Operation)
    requires MutationsReadBack(f) && Tracks(f, s, ms, m) && op.Appends? && ReplayAll(f, FRESH, ms).Success?
    requires Succeeds(f, s, ReplayAll(f, FRESH, ms).value, op)
    ensures Tracks(f, After(f, s, ReplayAll(f, FRESH, ms).value, op), ms + [op.mutation], m)
  {
    AppendKeepsLog(f, s, KIND_MUTATION, op.at, f.encode(op.mutation).value);
    AppendFollows(f, Base(f, s.snapshot).value, s.log, ms, m, op.mutation, s.next, op.at);
  }

  lemma {:induction false} NoteTracks(f: Format, s: Store, ms: seq<Mutation>, m: nat, op: Operation)
    requires Tracks(f, s, ms, m) && op.Notes? && ReplayAll(f, FRESH, ms).Success?
    requires Succeeds(f, s, ReplayAll(f, FRESH, ms).value, op)
    ensures Tracks(f, After(f, s, ReplayAll(f, FRESH, ms).value, op), ms, m)
  {
    AppendKeepsLog(f, s, KIND_INCIDENT, op.at, op.text);
    IncidentFollows(f, Base(f, s.snapshot).value, s.log, ms, m, op.text, s.next, op.at);
  }

  lemma {:induction false} FreshLogTracks(f: Format, s: Store, ms: seq<Mutation>)
    requires s.log == [] && s.stream < U128 && s.next <= UINT64_MAX
    requires ReplayAll(f, FRESH, ms).Success? && Base(f, s.snapshot) == ReplayAll(f, FRESH, ms)
    ensures Tracks(f, s, ms, |ms|)
  {
    FreshFollows(f, ms);
  }

  /** A compaction changes nothing about what is rebuilt. */
  lemma {:induction false} CompactTracks(f: Format, s: Store, ms: seq<Mutation>, m: nat, op: Operation)
    requires SnapshotsReadBack(f) && Tracks(f, s, ms, m) && op.Compacts? && ReplayAll(f, FRESH, ms).Success?
    requires Succeeds(f, s, ReplayAll(f, FRESH, ms).value, op)
    ensures Tracks(f, After(f, s, ReplayAll(f, FRESH, ms).value, op), ms, |ms|)
  {
    var r := ReplayAll(f, FRESH, ms).value;
    FreshLogTracks(f, After(f, s, r, op), ms);
  }

  lemma {:induction false} AllWhole(crc: Checksum, rs: seq<Record>)
    ensures WholeRecords(rs, |EncodeAll(crc, rs)|) == |rs|
    decreases |rs|
  {
    if rs != [] { AllWhole(crc, rs[1..]); }
  }

  lemma {:induction false} AppendedPrefix(rs: seq<Record>, previous: Option<nat>, k: nat)
    requires Appended(rs, previous) && k <= |rs|
    ensures Appended(rs[..k], previous)
    decreases |rs|
  {
    if k > 0 {
      assert rs[..k][1..] == rs[1..][..k - 1];
      AppendedPrefix(rs[1..], Some(rs[0].sequence), k - 1);
    }
  }

  lemma {:induction false} AppendedRises(rs: seq<Record>, previous: Option<nat>, i: nat)
    requires Appended(rs, previous) && i < |rs|
    ensures rs[i].sequence <= rs[|rs| - 1].sequence
    decreases |rs|
  {
    if |rs| > 1 {
      AppendedRises(rs[1..], Some(rs[0].sequence), if i == 0 then 0 else i - 1);
    }
  }

  lemma {:induction false} CutKeepsLog(s: Store, k: nat)
    requires LogOk(s) && k <= |s.log|
    ensures LogOk(s.(log := s.log[..k], next := NextSequence(s.log[..k])))
  {
    AppendedPrefix(s.log, None, k);
    if k > 0 { AppendedRises(s.log, None, k - 1); }
  }

  /** The files after a stop that left the log cut short. */
  function CutFiles(f: Format, s: Store, cut: nat): Files
    requires cut <= |LogOf(f.crc, s.stream, s.log)|
  {
    Files(s.snapshot, Some(LogOf(f.crc, s.stream, s.log)[..cut]))
  }

  /** Opening the cut files rebuilds `r` from the first `k` records, and reports damage exactly when the cut
      was not right behind them. */
  ghost predicate OpensAs(f: Format, s: Store, cut: nat, stream: Uuid, k: nat, r: Recovery)
    requires cut <= |LogOf(f.crc, s.stream, s.log)| && k <= |s.log|
  {
    var o := OpenStore(f, CutFiles(f, s, cut), stream);
    && o.Success? && o.value.scanned.state == r && o.value.scanned.records == s.log[..k]
    && o.value.file == LogOf(f.crc, s.stream, s.log[..k])
    && (o.value.scanned.damaged <==> cut != |LogOf(f.crc, s.stream, s.log[..k])|)
  }

  lemma {:induction false} OpensOver(f: Format, s: Store, base: Recovery, r: Recovery, cut: nat, stream: Uuid)
    requires LogOk(s) && Base(f, s.snapshot) == Success(base)
    requires WAL_HEADER_SIZE <= cut <= |LogOf(f.crc, s.stream, s.log)|
    requires Visit(Visitor(f), base, s.log[..WholeRecords(s.log, cut - WAL_HEADER_SIZE)]) == Success(r)
    ensures OpensAs(f, s, cut, stream, WholeRecords(s.log, cut - WAL_HEADER_SIZE), r)
  {
    OpenAfterCut(f.crc, s.stream, stream, s.log, cut, MAX_STORE_RECORDS, Visitor(f), base);
  }

  /** The first `k` records are those the cut left whole, and they rebuild the first `n` mutations. */
  ghost predicate WholeUpTo(s: Store, m: nat, cut: nat, k: nat, n: nat) {
    && cut >= WAL_HEADER_SIZE && k <= |s.log| && k == WholeRecords(s.log, cut - WAL_HEADER_SIZE)
    && n == m + Mutating(s.log[..k])
  }

  lemma {:induction false} OpensRead(
      f: Format, s: Store, base: Recovery, ms: seq<Mutation>, m: nat, cut: nat, stream: Uuid, k: nat, n: nat)
    requires LogOk(s) && Base(f, s.snapshot) == Success(base) && cut <= |LogOf(f.crc, s.stream, s.log)|
    requires WholeUpTo(s, m, cut, k, n) && Reads(f, base, s.log, ms, m, k)
    ensures n <= |ms| && ReplayAll(f, FRESH, ms[..n]).Success?
    ensures OpensAs(f, s, cut, stream, k, ReplayAll(f, FRESH, ms[..n]).value)
  {
    OpensOver(f, s, base, ReplayAll(f, FRESH, ms[..n]).value, cut, stream);
  }

  /** Opening a cut log finds the whole records and rebuilds the fold up to them. */
  lemma {:induction false} OpensTo(
      f: Format, s: Store, ms: seq<Mutation>, m: nat, cut: nat, stream: Uuid) returns (k: nat, n: nat)
    requires Tracks(f, s, ms, m) && WAL_HEADER_SIZE <= cut <= |LogOf(f.crc, s.stream, s.log)|
    ensures WholeUpTo(s, m, cut, k, n) && n <= |ms| && ReplayAll(f, FRESH, ms[..n]).Success?
    ensures OpensAs(f, s, cut, stream, k, ReplayAll(f, FRESH, ms[..n]).value)
  {
    k := WholeRecords(s.log, cut - WAL_HEADER_SIZE);
    n := m + Mutating(s.log[..k]);
    var base := Base(f, s.snapshot).value;
    assert Reads(f, base, s.log, ms, m, k);
    OpensRead(f, s, base, ms, m, cut, stream, k, n);
  }

  /** The store with its log cut after `k` records, opened again. */
  function CutStore(s: Store, k: nat): Store
    requires k <= |s.log|
  {
    s.(log := s.log[..k], next := NextSequence(s.log[..k]))
  }

  lemma {:induction false} ReopenedIs(f: Format, s: Store, cut: nat, stream: Uuid, k: nat, r: Recovery)
    requires cut <= |LogOf(f.crc, s.stream, s.log)| && k <= |s.log| && OpensAs(f, s, cut, stream, k, r)
    ensures Reopened(f, s, cut, stream) == Success(CutStore(s, k))
  {
  }

  lemma {:induction false} CutTracks(f: Format, s: Store, ms: seq<Mutation>, m: nat, k: nat)
    requires Tracks(f, s, ms, m) && k <= |s.log|
    ensures m + Mutating(s.log[..k]) <= |ms| && Tracks(f, CutStore(s, k), ms[..m + Mutating(s.log[..k])], m)
  {
    CutKeepsLog(s, k);
    CutFollows(f, Base(f, s.snapshot).value, s.log, ms, m, k);
  }

  lemma {:induction false} DropsLost(s: Store, ms: seq<Mutation>, m: nat, cut: nat)
    requires cut >= WAL_HEADER_SIZE && m + Mutating(s.log) == |ms|
    ensures var n := m + Mutating(s.log[..WholeRecords(s.log, cut - WAL_HEADER_SIZE)]);
            n <= |ms| && Drop(ms, Lost(s, cut)) == ms[..n]
  {
    MutatingPrefix(s.log, WholeRecords(s.log, cut - WAL_HEADER_SIZE));
  }

  lemma {:induction false} ReopenTracks(f: Format, s: Store, ms: seq<Mutation>, m: nat, cut: nat, stream: Uuid)
    requires Tracks(f, s, ms, m) && WAL_HEADER_SIZE <= cut <= |LogOf(f.crc, s.stream, s.log)|
    ensures Reopened(f, s, cut, stream).Success?
    ensures Tracks(f, Reopened(f, s, cut, stream).value, Drop(ms, Lost(s, cut)), m)
  {
    var k, n := OpensTo(f, s, ms, m, cut, stream);
    ReopenedIs(f, s, cut, stream, k, ReplayAll(f, FRESH, ms[..n]).value);
    CutTracks(f, s, ms, m, k);
    DropsLost(s, ms, m, cut);
  }

  lemma {:induction false} StepTracks(f: Format, s: Store, ms: seq<Mutation>, m: nat, op: Operation)
    requires MutationsReadBack(f) && SnapshotsReadBack(f) && Tracks(f, s, ms, m)
    requires ReplayAll(f, FRESH, ms).Success? && Succeeds(f, s, ReplayAll(f, FRESH, ms).value, op)
    ensures var t := After(f, s, ReplayAll(f, FRESH, ms).value, op);
            match op
            case Appends(mutation, _) => Tracks(f, t, ms + [mutation], m)
            case Notes(_, _) => Tracks(f, t, ms, m)
            case Compacts(_, _) => Tracks(f, t, ms, |ms|)
            case Reopens(cut, _) => Tracks(f, t, Drop(ms, Lost(s, cut)), m)
  {
    match op
    case Appends(_, _) => AppendTracks(f, s, ms, m, op);
    case Notes(_, _) => NoteTracks(f, s, ms, m, op);
    case Compacts(_, _) => CompactTracks(f, s, ms, m, op);
    case Reopens(cut, stream) => ReopenTracks(f, s, ms, m, cut, stream);
  }

  // ---- every history ----

  lemma {:induction false} StartTracks(f: Format, s: Store)
    requires s == Store(None, s.stream, [], 1) && s.stream < U128
    ensures Tracks(f, s, [], 0)
  {
    FreshLogTracks(f, s, []);
  }

  /** After any history the snapshot holds the fold of a beginning of the surviving mutations and the log
      the rest. */
  lemma {:induction false} HistoryTracks(f: Format, stores: seq<Store>, ops: seq<Operation>)
    requires MutationsReadBack(f) && SnapshotsReadBack(f) && IsHistory(f, stores, ops)
    ensures Tracks(f, stores[|ops|], Surviving(stores, ops), SavedCount(stores, ops))
    decreases |ops|
  {
    if ops == [] {
      StartTracks(f, stores[0]);
    } else {
      var n := |ops| - 1;
      HistoryTracks(f, stores[..n + 1], ops[..n]);
      StepTracks(f, stores[n], Surviving(stores[..n + 1], ops[..n]), SavedCount(stores[..n + 1], ops[..n]), ops[n]);
    }
  }

  /** Hence after a stop that leaves the log cut anywhere past its header, reopening rebuilds the fold of a
      prefix of the surviving mutations, which has at least those of the last compaction, and reports damage
      exactly when the cut was not between two records. */
  lemma {:induction false} ReopenTorn(f: Format, stores: seq<Store>, ops: seq<Operation>, stream: Uuid, cut: nat)
    returns (k: nat, n: nat)
    requires MutationsReadBack(f) && SnapshotsReadBack(f) && IsHistory(f, stores, ops)
    requires var s := stores[|ops|]; WAL_HEADER_SIZE <= cut <= |LogOf(f.crc, s.stream, s.log)|
    ensures var s, ms, m := stores[|ops|], Surviving(stores, ops), SavedCount(stores, ops);
            && m <= n <= |ms| && WholeUpTo(s, m, cut, k, n) && ReplayAll(f, FRESH, ms[..n]).Success?
            && OpensAs(f, s, cut, stream, k, ReplayAll(f, FRESH, ms[..n]).value)
  {
    HistoryTracks(f, stores, ops);
    k, n := OpensTo(f, stores[|ops|], Surviving(stores, ops), SavedCount(stores, ops), cut, stream);
  }

  lemma {:induction false} FullCut(crc: Checksum, stream: Uuid, log: seq<Record>)
    ensures var file := LogOf(crc, stream, log);
            && WholeRecords(log, |file| - WAL_HEADER_SIZE) == |log| && log[..|log|] == log && file[..|file|] == file
  {
    AllWhole(crc, log);
  }

  lemma {:induction false} OpensWhole(f: Format, s: Store, base: Recovery, r: Recovery, stream: Uuid)
    requires LogOk(s) && Base(f, s.snapshot) == Success(base) && Visit(Visitor(f), base, s.log) == Success(r)
    ensures var o := OpenStore(f, FilesOf(f, s), stream);
            o.Success? && o.value.scanned.state == r && !o.value.scanned.damaged
  {
    FullCut(f.crc, s.stream, s.log);
    OpensOver(f, s, base, r, |LogOf(f.crc, s.stream, s.log)|, stream);
  }

  /** And after a clean stop it rebuilds the fold of all of them and the last term set. */
  lemma {:induction false} ReplayTransparent(f: Format, stores: seq<Store>, ops: seq<Operation>, stream: Uuid)
    requires MutationsReadBack(f) && SnapshotsReadBack(f) && IsHistory(f, stores, ops)
    ensures var o := OpenStore(f, FilesOf(f, stores[|ops|]), stream);
            o.Success? && ReplayAll(f, FRESH, Surviving(stores, ops)) == Success(o.value.scanned.state)
              && !o.value.scanned.damaged
  {
    var s, ms, m := stores[|ops|], Surviving(stores, ops), SavedCount(stores, ops);
    HistoryTracks(f, stores, ops);
    var base := Base(f, s.snapshot).value;
    FollowsAll(f, base, s.log, ms, m);
    OpensWhole(f, s, base, ReplayAll(f, FRESH, ms).value, stream);
  }

  // ---- clean histories ----

  function Logged(ops: seq<Operation>): seq<Mutation>
    decreases |ops|
  {
    if ops == [] then []
    else
      var before, op := Logged(ops[..|ops| - 1]), ops[|ops| - 1];
      if op.Appends? then before + [op.mutation] else before
  }

  /** No stop lost a record. */
  ghost predicate Untorn(f: Format, stores: seq<Store>, ops: seq<Operation>) {
    |stores| == |ops| + 1 &&
    forall i | 0 <= i < |ops| :: ops[i].Reopens? ==> ops[i].cut == |LogOf(f.crc, stores[i].stream, stores[i].log)|
  }

  lemma {:induction false} NothingLost(f: Format, s: Store)
    ensures Lost(s, |LogOf(f.crc, s.stream, s.log)|) == 0
  {
    FullCut(f.crc, s.stream, s.log);
  }

  /** Then every mutation ever appended survives. */
  lemma {:induction false} AllSurvive(f: Format, stores: seq<Store>, ops: seq<Operation>)
    requires Untorn(f, stores, ops)
    ensures Surviving(stores, ops) == Logged(ops)
    decreases |ops|
  {
    if ops != [] {
      var n := |ops| - 1;
      assert forall i | 0 <= i < n :: ops[..n][i] == ops[i] && stores[..n + 1][i] == stores[i];
      AllSurvive(f, stores[..n + 1], ops[..n]);
      if ops[n].Reopens? { NothingLost(f, stores[n]); }
    }
  }
}
