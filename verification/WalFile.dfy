/** The log as the runtime drives it: the scan loop of `Wal::open`, and a file that is appended to and
    reset in place (src/store/wal.cpp). */
module WalFiles {
  import opened Model
  import opened Wire
  import opened Wal

  // ---- the scan loop ----

  function PrependAll<S>(rs: seq<Record>, r: Result<Scanned<S>>): Result<Scanned<S>>
    decreases |rs|
  {
    if rs == [] then r else Prepend(rs[0], PrependAll(rs[1..], r))
  }

  lemma {:induction false} PrependLast<S>(rs: seq<Record>, record: Record, r: Result<Scanned<S>>)
    ensures PrependAll(rs + [record], r) == PrependAll(rs, Prepend(record, r))
    decreases |rs|
  {
    if rs == [] {
      assert rs + [record] == [record] && [record][1..] == [];
      assert PrependAll([record][1..], r) == r;
    } else {
      assert (rs + [record])[1..] == rs[1..] + [record];
      PrependLast(rs[1..], record, r);
    }
  }

  lemma {:induction false} PrependDone<S>(rs: seq<Record>, s: S, damaged: bool)
    ensures PrependAll(rs, Success(Scanned(s, [], 0, damaged))) == Success(Scanned(s, rs, TotalSize(rs), damaged))
    decreases |rs|
  {
    if rs != [] {
      PrependDone(rs[1..], s, damaged);
      assert [rs[0]] + rs[1..] == rs;
    }
  }

  lemma {:induction false} PrependFailed<S>(rs: seq<Record>, o: Outcome)
    ensures PrependAll<S>(rs, Failure(o)) == Failure(o)
    decreases |rs|
  {
    if rs != [] { PrependFailed<S>(rs[1..], o); }
  }

  lemma {:induction false} TotalSizeLast(rs: seq<Record>, r: Record)
    ensures TotalSize(rs + [r]) == TotalSize(rs) + RecordSize(r)
    decreases |rs|
  {
    if rs == [] {
      assert rs + [r] == [r] && [r][1..] == [];
    } else {
      assert (rs + [r])[1..] == rs[1..] + [r];
      TotalSizeLast(rs[1..], r);
    }
  }

  /** The scan so far, and that what remains continues it. */
  ghost predicate Progress<S>(
      crc: Checksum, b: Bytes, max: nat, visit: (S, Record) -> Result<S>, whole: Result<Scanned<S>>,
      records: seq<Record>, offset: nat,
      previous: Option<nat>, state: S)
  {
    && offset <= |b| && offset == TotalSize(records)
    && whole == PrependAll(records, Scan(crc, b[offset..], previous, |records|, max, visit, state))
  }

  lemma {:induction false} ScanTurn<S>(
      crc: Checksum, b: Bytes, offset: nat, previous: Option<nat>, count: nat, max: nat, visit: (S,
      Record) -> Result<S>,
      state: S, record: Record)
    requires offset <= |b| && ReadRecord(crc, b[offset..], previous) == Intact(record)
    requires visit(state, record).Success? && count + 1 <= max
    ensures offset + RecordSize(record) <= |b|
    ensures Scan(crc, b[offset..], previous, count, max, visit, state)
         == Prepend(record,
                    Scan(crc, b[offset + RecordSize(record)..], Some(record.sequence), count + 1, max, visit,
                         visit(state, record).value))
  {
    ScanIntact(crc, b[offset..], previous, count, max, visit, state, record);
    assert b[offset..][RecordSize(record)..] == b[offset + RecordSize(record)..];
  }

  lemma {:induction false} ProgressTurn<S>(
      crc: Checksum, b: Bytes, max: nat, visit: (S, Record) -> Result<S>, whole: Result<Scanned<S>>,
      records: seq<Record>, offset: nat,
      previous: Option<nat>, state: S, record: Record)
    requires Progress(crc, b, max, visit, whole, records, offset, previous, state)
    requires ReadRecord(crc, b[offset..], previous) == Intact(record) && visit(state, record).Success?
    requires |records| + 1 <= max
    ensures Progress(crc, b, max, visit, whole, records + [record], offset + RecordSize(record), Some(record.sequence),
                     visit(state, record).value)
  {
    var n := RecordSize(record);
    var next := Scan(crc, b[offset + n..], Some(record.sequence), |records| + 1, max, visit,
                     visit(state, record).value);
    ScanTurn(crc, b, offset, previous, |records|, max, visit, state, record);
    Chain(records, record, whole, Scan(crc, b[offset..], previous, |records|, max, visit, state), next);
    TotalSizeLast(records, record);
  }

  lemma {:induction false} Chain<S>(
      records: seq<Record>, record: Record, whole: Result<Scanned<S>>, here: Result<Scanned<S>>,
      next: Result<Scanned<S>>)
    requires whole == PrependAll(records, here) && here == Prepend(record, next)
    ensures whole == PrependAll(records + [record], next)
  {
    PrependLast(records, record, next);
  }

  lemma {:induction false} ProgressEnds<S>(
      crc: Checksum, b: Bytes, max: nat, visit: (S, Record) -> Result<S>, whole: Result<Scanned<S>>,
      records: seq<Record>, offset: nat,
      previous: Option<nat>, state: S, damaged: bool)
    requires Progress(crc, b, max, visit, whole, records, offset, previous, state)
    requires ReadRecord(crc, b[offset..], previous) == if damaged then Damaged else CleanEnd
    ensures whole == Success(Scanned(state, records, offset, damaged))
  {
    PrependDone(records, state, damaged);
  }

  /** The reasons for which a turn ends the scan with an error. */
  predicate TurnFails<S(==)>(found: Found, count: nat, max: nat, visit: (S, Record) -> Result<S>, state: S,
                             o: Outcome) {
    match found
    case Regressed => o == Replayed
    case Intact(record) =>
      if visit(state, record).Failure? then o == visit(state, record).outcome
        else count + 1 > max && o == CapacityExceeded
    case _ => false
  }

  lemma {:induction false} ProgressFails<S>(
      crc: Checksum, b: Bytes, max: nat, visit: (S, Record) -> Result<S>, whole: Result<Scanned<S>>,
      records: seq<Record>, offset: nat,
      previous: Option<nat>, state: S, o: Outcome)
    requires Progress(crc, b, max, visit, whole, records, offset, previous, state)
    requires TurnFails(ReadRecord(crc, b[offset..], previous), |records|, max, visit, state, o)
    ensures whole == Failure(o)
  {
    PrependFailed<S>(records, o);
  }

  /** The loop visits record after record and keeps the offset of the next; it stops at a clean end or at
      the first record that cannot be verified. */
  method ScanLog<S>(crc: Checksum, b: Bytes, max: nat, visit: (S, Record) -> Result<S>, s: S)
    returns (r: Result<Scanned<S>>)
    ensures r == Scan(crc, b, None, 0, max, visit, s)
  {
    var offset, previous, records, state := 0, None, [], s;
    ghost var whole := Scan(crc, b, None, 0, max, visit, s);
    assert b[0..] == b;
    while true
      invariant Progress(crc, b, max, visit, whole, records, offset, previous, state)
      decreases |b| - offset
    {
      match ReadRecord(crc, b[offset..], previous) {
        case CleanEnd =>
          ProgressEnds(crc, b, max, visit, whole, records, offset, previous, state, false);
          return Success(Scanned(state, records, offset, false));
        case Damaged =>
          ProgressEnds(crc, b, max, visit, whole, records, offset, previous, state, true);
          return Success(Scanned(state, records, offset, true));
        case Regressed =>
          ProgressFails(crc, b, max, visit, whole, records, offset, previous, state, Replayed);
          return Failure(Replayed);
        case Intact(record) =>
          var visited := visit(state, record);
          if visited.Failure? {
            ProgressFails(crc, b, max, visit, whole, records, offset, previous, state, visited.outcome);
            return Failure(visited.outcome);
          }
          if |records| + 1 > max {
            ProgressFails(crc, b, max, visit, whole, records, offset, previous, state, CapacityExceeded);
            return Failure(CapacityExceeded);
          }
          ProgressTurn(crc, b, max, visit, whole, records, offset, previous, state, record);
          records, state, previous, offset :=
            records + [record], visited.value, Some(record.sequence), offset + RecordSize(record);
      }
    }
  }

  // ---- the open log ----

  lemma {:induction false} LogAppend(crc: Checksum, stream: Uuid, log: seq<Record>, r: Record)
    ensures LogOf(crc, stream, log + [r]) == LogOf(crc, stream, log) + EncodeRecord(crc, r)
  {
    EncodeAppend(crc, log, r);
  }

  /** The checks of `Wal::append`, in order. */
  function AppendOutcome(r: Record, fileSize: nat, count: nat, maxBytes: nat, maxRecords: nat): Outcome {
    if !KnownKind(r.kind) then Invalid
    else if |r.payload| > MAX_RECORD_PAYLOAD || count >= maxRecords then CapacityExceeded
    else if fileSize + RecordSize(r) > maxBytes then CapacityExceeded
    else Ok
  }

  class LogFile {
    const crc: Checksum
    const maxBytes: nat
    const maxRecords: nat
    var file: Bytes
    var bytes: nat
    var records: nat
    var lastSequence: nat
    ghost var stream: Uuid
    ghost var log: seq<Record>

    /** The file holds exactly the records appended since it was created or reset, and the counters say so. */
    ghost predicate Valid()
      reads this
    {
      && file == LogOf(crc, stream, log) && bytes == |file| && records == |log|
      && (log != [] ==> lastSequence == log[|log| - 1].sequence)
    }

    constructor (crc: Checksum, stream: Uuid, maxBytes: nat, maxRecords: nat)
      ensures Valid() && log == [] && this.stream == stream && this.crc == crc && this.maxBytes == maxBytes
      ensures this.maxRecords == maxRecords
    {
      this.crc, this.maxBytes, this.maxRecords := crc, maxBytes, maxRecords;
      file, bytes, records, lastSequence := MakeHeader(crc, stream), WAL_HEADER_SIZE, 0, 0;
      this.stream, log := stream, [];
    }

    /** `Wal::append`: all of the record or nothing. */
    method Append(kind: nat, sequence: nat, at: nat, payload: Bytes) returns (outcome: Outcome)
      requires Valid() && sequence < U64 && at < U64
      modifies this
      ensures Valid() && stream == old(stream)
      ensures outcome == AppendOutcome(Record(kind, sequence, at, payload), |old(file)|, |old(log)|, maxBytes,
                                       maxRecords)
      ensures log == if outcome == Ok then old(log) + [Record(kind, sequence, at, payload)] else old(log)
      ensures outcome == Ok ==> lastSequence == sequence && Writable(log[|log| - 1])
    {
      if !KnownKind(kind) { return Invalid; }
      if |payload| > MAX_RECORD_PAYLOAD || records >= maxRecords { return CapacityExceeded; }
      var record := Record(kind, sequence, at, payload);
      if bytes + RecordSize(record) > maxBytes { return CapacityExceeded; }
      LogAppend(crc, stream, log, record);
      file := file + EncodeRecord(crc, record);
      log := log + [record];
      bytes, records, lastSequence := bytes + RecordSize(record), records + 1, sequence;
      return Ok;
    }

    /** `Wal::reset`: only the header is left; the sequence counter is not touched. */
    method Reset(newStream: Uuid)
      requires Valid()
      modifies this
      ensures Valid() && log == [] && stream == newStream && lastSequence == old(lastSequence)
    {
      file, bytes, records := MakeHeader(crc, newStream), WAL_HEADER_SIZE, 0;
      stream, log := newStream, [];
    }
  }
}
