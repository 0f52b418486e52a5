/** The append-only log (src/store/wal.cpp).  A file is a byte string; the checksum is a parameter of
    which nothing is assumed. */
module Wal {
  import opened Model
  import opened Wire

  const WAL_HEADER_SIZE := 64
  const RECORD_HEADER_SIZE := 32
  const RECORD_TRAILER_SIZE := 4
  const MAX_RECORD_PAYLOAD := 0x10_0000
  const MAX_STORE_BYTES := 0x2000_0000
  const MAX_STORE_RECORDS := 0x40_0000
  const WAL_MAGIC: Bytes := [0x49, 0x43, 0x46, 0x57, 0x41, 0x4C, 0x31, 0x00]
  const WAL_VERSION := 1

  type Word32 = n: nat | n < 0x1_0000_0000
  type Checksum = Bytes -> Word32

  datatype Record = Record(kind: nat, sequence: nat, at: nat, payload: Bytes)

  predicate KnownKind(k: nat) { 1 <= k <= 4 }

  // ---- fixed-width fields at fixed offsets ----

  function Field(b: Bytes, offset: nat, width: nat): nat
    requires offset + width <= |b|
  {
    FromBigEndian(b[offset..offset + width])
  }

  /** The values and widths of the fields of a header, in order. */
  type Layout = seq<(nat, nat)>

  predicate Fit(fields: Layout) {
    forall i | 0 <= i < |fields| :: fields[i].0 < Pow256(fields[i].1)
  }

  function Offset(fields: Layout, i: nat): nat
    requires i <= |fields|
  {
    if i == 0 then 0 else Offset(fields, i - 1) + fields[i - 1].1
  }

  function Pack(fields: Layout): (b: Bytes)
    ensures |b| == Offset(fields, |fields|)
    decreases |fields|
  {
    if fields == [] then []
    else
      var before, last := fields[..|fields| - 1], fields[|fields| - 1];
      OffsetOfPrefix(fields, |fields| - 1, |fields| - 1);
      Pack(before) + BigEndian(last.0, last.1)
  }

  lemma {:induction false} OffsetOfPrefix(fields: Layout, k: nat, i: nat)
    requires i <= k <= |fields|
    ensures Offset(fields[..k], i) == Offset(fields, i)
    decreases i
  {
    if i > 0 { OffsetOfPrefix(fields, k, i - 1); }
  }

  lemma {:induction false} FieldOfPart(before: Bytes, x: nat, width: nat, after: Bytes)
    requires x < Pow256(width)
    ensures Field(before + BigEndian(x, width) + after, |before|, width) == x
  {
    var b := before + BigEndian(x, width) + after;
    assert b[|before|..|before| + width] == BigEndian(x, width);
    BigEndianInverse(x, width);
  }

  lemma {:induction false} OffsetGrows(fields: Layout, i: nat, j: nat)
    requires i <= j <= |fields|
    ensures Offset(fields, i) <= Offset(fields, j)
    decreases j
  {
    if i < j { OffsetGrows(fields, i, j - 1); }
  }

  /** A packed field is found at its offset, whatever follows the header. */
  lemma {:induction false} PackedField(fields: Layout, i: nat, tail: Bytes)
    requires Fit(fields) && i < |fields|
    ensures Offset(fields, i) + fields[i].1 <= |Pack(fields)|
    ensures Field(Pack(fields) + tail, Offset(fields, i), fields[i].1) == fields[i].0
    decreases |fields|
  {
    var before, last := fields[..|fields| - 1], fields[|fields| - 1];
    OffsetGrows(fields, i + 1, |fields|);
    OffsetOfPrefix(fields, |fields| - 1, i);
    assert Pack(fields) + tail == Pack(before) + (BigEndian(last.0, last.1) + tail);
    if i < |before| {
      PackedField(before, i, BigEndian(last.0, last.1) + tail);
    } else {
      OffsetOfPrefix(fields, |fields| - 1, |before|);
      FieldOfPart(Pack(before), last.0, last.1, tail);
    }
  }

  lemma {:induction false} FieldOfPrefix(b: Bytes, k: nat, offset: nat, width: nat)
    requires offset + width <= k <= |b|
    ensures Field(b[..k], offset, width) == Field(b, offset, width)
  {
    assert b[..k][offset..offset + width] == b[offset..offset + width];
  }

  // ---- the file header ----

  function HeaderLayout(stream: Uuid): Layout {
    [(WAL_VERSION, 2), (0, 2), (WAL_HEADER_SIZE, 4), (stream, 16), (0, 8), (0, 8), (0, 8)]
  }

  lemma {:induction false} HeaderOffsets(stream: Uuid)
    ensures var f := HeaderLayout(stream);
            Offset(f, 0) == 0 && Offset(f, 1) == 2 && Offset(f, 2) == 4 && Offset(f, 3) == 8 && Offset(f, |f|) == 48
  {
    var f := HeaderLayout(stream);
    assert Offset(f, 1) == 2;
    assert Offset(f, 2) == 4;
    assert Offset(f, 3) == 8;
    assert Offset(f, 4) == 24;
    assert Offset(f, 5) == 32;
    assert Offset(f, 6) == 40;
  }

  function HeaderBody(stream: Uuid): (b: Bytes)
    ensures |b| == 56
  {
    HeaderOffsets(stream);
    WAL_MAGIC + Pack(HeaderLayout(stream))
  }

  /** `make_header`. */
  function MakeHeader(crc: Checksum, stream: Uuid): (b: Bytes)
    ensures |b| == WAL_HEADER_SIZE
  {
    HeaderBody(stream) + BigEndian(crc(HeaderBody(stream)), 4) + BigEndian(0, 4)
  }

  /** `validate_header`. */
  function CheckHeader(crc: Checksum, b: Bytes): Outcome {
    if |b| < WAL_HEADER_SIZE then Corrupt
    else if b[..8] != WAL_MAGIC then Corrupt
    else if Field(b, 8, 2) != WAL_VERSION then Incompatible
    else if Field(b, 10, 2) != 0 then Invalid
    else if Field(b, 12, 4) != WAL_HEADER_SIZE then Invalid
    else if Field(b, 56, 4) != crc(b[..56]) then Corrupt
    else Ok
  }

  lemma {:induction false} FieldAfter(before: Bytes, b: Bytes, offset: nat, width: nat)
    requires offset + width <= |b|
    ensures Field(before + b, |before| + offset, width) == Field(b, offset, width)
  {
    assert (before + b)[|before| + offset..|before| + offset + width] == b[offset..offset + width];
  }

  /** A packed field behind a magic number. */
  lemma {:induction false} MagicField(magic: Bytes, f: Layout, i: nat, tail: Bytes)
    requires Fit(f) && i < |f|
    ensures Offset(f, i) + f[i].1 <= |Pack(f)|
    ensures Field(magic + (Pack(f) + tail), |magic| + Offset(f, i), f[i].1) == f[i].0
  {
    PackedField(f, i, tail);
    Shifted(magic, Pack(f) + tail, Offset(f, i), f[i].1, f[i].0);
  }

  lemma {:induction false} Shifted(before: Bytes, b: Bytes, offset: nat, width: nat, x: nat)
    requires offset + width <= |b| && Field(b, offset, width) == x
    ensures |before| + offset + width <= |before + b| && Field(before + b, |before| + offset, width) == x
  {
    FieldAfter(before, b, offset, width);
  }

  lemma {:induction false} Regroup(a: Bytes, b: Bytes, c: Bytes)
    ensures a + b + c == a + (b + c)
  {
  }

  lemma {:induction false} HeaderFits(stream: Uuid)
    requires stream < U128
    ensures Fit(HeaderLayout(stream))
  {
    Widths();
  }

  lemma {:induction false} HeaderFields(stream: Uuid, tail: Bytes)
    requires stream < U128
    ensures var b := HeaderBody(stream) + tail;
            b[..8] == WAL_MAGIC && Field(b, 8, 2) == WAL_VERSION && Field(b, 10, 2) == 0
              && Field(b, 12, 4) == WAL_HEADER_SIZE
  {
    var f := HeaderLayout(stream);
    HeaderFits(stream);
    HeaderOffsets(stream);
    Regroup(WAL_MAGIC, Pack(f), tail);
    MagicField(WAL_MAGIC, f, 0, tail);
    MagicField(WAL_MAGIC, f, 1, tail);
    MagicField(WAL_MAGIC, f, 2, tail);
  }

  /** A checksum behind what it covers. */
  lemma {:induction false} SumField(crc: Checksum, body: Bytes, tail: Bytes)
    ensures var b := body + BigEndian(crc(body), 4) + tail; Field(b, |body|, 4) == crc(body) && b[..|body|] == body
  {
    Widths();
    FieldOfPart(body, crc(body), 4, tail);
  }

  /** A header that was just written passes its own checks, whatever follows it. */
  lemma {:induction false} HeaderChecks(crc: Checksum, stream: Uuid, tail: Bytes)
    requires stream < U128
    ensures CheckHeader(crc, MakeHeader(crc, stream) + tail) == Ok
  {
    var body, sum, rest := HeaderBody(stream), BigEndian(crc(HeaderBody(stream)), 4), BigEndian(0, 4) + tail;
    assert MakeHeader(crc, stream) + tail == body + sum + rest;
    SumField(crc, body, rest);
    assert body + sum + rest == body + (sum + rest);
    HeaderFields(stream, sum + rest);
  }

  // ---- records ----

  predicate Writable(r: Record) {
    KnownKind(r.kind) && r.sequence < U64 && r.at < U64 && |r.payload| <= MAX_RECORD_PAYLOAD
  }

  function RecordLayout(crc: Checksum, r: Record): Layout {
    [(|r.payload|, 4), (r.kind, 2), (0, 2), (r.sequence, 8), (r.at, 8), (crc(r.payload), 4)]
  }

  lemma {:induction false} RecordOffsets(crc: Checksum, r: Record)
    ensures var f := RecordLayout(crc, r);
            && Offset(f, 0) == 0 && Offset(f, 1) == 4 && Offset(f, 2) == 6 && Offset(f, 3) == 8 && Offset(f, 4) == 16
            && Offset(f, 5) == 24 && Offset(f, |f|) == 28
  {
    var f := RecordLayout(crc, r);
    assert Offset(f, 1) == 4;
    assert Offset(f, 2) == 6;
    assert Offset(f, 3) == 8;
    assert Offset(f, 4) == 16;
    assert Offset(f, 5) == 24;
  }

  /** The first 28 bytes of a record: everything the header checksum covers. */
  function RecordBody(crc: Checksum, r: Record): (b: Bytes)
    ensures |b| == 28
  {
    RecordOffsets(crc, r);
    Pack(RecordLayout(crc, r))
  }

  function RecordHeader(crc: Checksum, r: Record): (b: Bytes)
    ensures |b| == RECORD_HEADER_SIZE
  {
    RecordBody(crc, r) + BigEndian(crc(RecordBody(crc, r)), 4)
  }

  function RecordSize(r: Record): nat { RECORD_HEADER_SIZE + |r.payload| + RECORD_TRAILER_SIZE }

  /** The bytes `Wal::append` writes. */
  function EncodeRecord(crc: Checksum, r: Record): (b: Bytes)
    ensures |b| == RecordSize(r)
  {
    var checked := RecordHeader(crc, r) + r.payload;
    checked + BigEndian(crc(checked), 4)
  }

  datatype Found = CleanEnd | Damaged | Regressed | Intact(record: Record)

  predicate HeaderSound(crc: Checksum, b: Bytes)
    requires |b| >= RECORD_HEADER_SIZE
  {
    && Field(b, 28, 4) == crc(b[..28]) && KnownKind(Field(b, 4, 2)) && Field(b, 6, 2) == 0
    && Field(b, 0, 4) <= MAX_RECORD_PAYLOAD
  }

  predicate BodySound(crc: Checksum, b: Bytes, length: nat)
    requires |b| >= RECORD_HEADER_SIZE + length + RECORD_TRAILER_SIZE
  {
    && Field(b, RECORD_HEADER_SIZE + length, 4) == crc(b[..RECORD_HEADER_SIZE + length])
    && Field(b, 24, 4) == crc(b[RECORD_HEADER_SIZE..RECORD_HEADER_SIZE + length])
  }

  /** One turn of the scan of `Wal::open`, at the first unread byte.  The sequence is compared before the
      payload is read. */
  function ReadRecord(crc: Checksum, b: Bytes, previous: Option<nat>): Found {
    if b == [] then CleanEnd
    else if |b| < RECORD_HEADER_SIZE || !HeaderSound(crc, b) then Damaged
    else if previous.Some? && Field(b, 8, 8) <= previous.value then Regressed
    else
      var length := Field(b, 0, 4);
      if |b| < RECORD_HEADER_SIZE + length + RECORD_TRAILER_SIZE || !BodySound(crc, b, length) then Damaged
      else Intact(Record(Field(b, 4, 2), Field(b, 8, 8), Field(b, 16, 8),
                         b[RECORD_HEADER_SIZE..RECORD_HEADER_SIZE + length]))
  }

  lemma {:induction false} RecordFits(crc: Checksum, r: Record)
    requires Writable(r)
    ensures Fit(RecordLayout(crc, r))
  {
    Widths();
  }

  lemma {:induction false} RecordFields(crc: Checksum, r: Record, tail: Bytes)
    requires Writable(r)
    ensures var b := RecordBody(crc, r) + tail;
            && Field(b, 0, 4) == |r.payload| && Field(b, 4, 2) == r.kind && Field(b, 6, 2) == 0
            && Field(b, 8, 8) == r.sequence && Field(b, 16, 8) == r.at && Field(b, 24, 4) == crc(r.payload)
  {
    var f := RecordLayout(crc, r);
    RecordFits(crc, r);
    RecordOffsets(crc, r);
    PackedField(f, 0, tail);
    PackedField(f, 1, tail);
    PackedField(f, 2, tail);
    PackedField(f, 3, tail);
    PackedField(f, 4, tail);
    PackedField(f, 5, tail);
  }

  lemma {:induction false} HeaderIsSound(crc: Checksum, r: Record, tail: Bytes)
    requires Writable(r)
    ensures var b := RecordHeader(crc, r) + tail;
            HeaderSound(crc, b) && Field(b, 0, 4) == |r.payload| && Field(b, 8, 8) == r.sequence
  {
    var body := RecordBody(crc, r);
    var sum := BigEndian(crc(body), 4);
    SumField(crc, body, tail);
    assert body + sum + tail == body + (sum + tail);
    RecordFields(crc, r, sum + tail);
  }

  lemma {:induction false} BodyIsSound(crc: Checksum, r: Record, tail: Bytes)
    requires Writable(r)
    ensures var b := EncodeRecord(crc, r) + tail; BodySound(crc, b, |r.payload|)
  {
    var checked := RecordHeader(crc, r) + r.payload;
    RecordParts(crc, r, tail);
    SumField(crc, checked, tail);
    RecordFields(crc, r, BigEndian(crc(RecordBody(crc, r)), 4) + (r.payload + BigEndian(crc(checked), 4) + tail));
  }

  /** A record that was written whole is read back, whatever follows it. */
  lemma {:induction false} RecordReadsBack(crc: Checksum, r: Record, tail: Bytes, previous: Option<nat>)
    requires Writable(r) && (previous.Some? ==> previous.value < r.sequence)
    ensures ReadRecord(crc, EncodeRecord(crc, r) + tail, previous) == Intact(r)
  {
    var rest := r.payload + BigEndian(crc(RecordHeader(crc, r) + r.payload), 4) + tail;
    RecordParts(crc, r, tail);
    HeaderIsSound(crc, r, rest);
    BodyIsSound(crc, r, tail);
    RecordFields(crc, r, BigEndian(crc(RecordBody(crc, r)), 4) + rest);
  }

  lemma {:induction false} RecordParts(crc: Checksum, r: Record, tail: Bytes)
    ensures var b := EncodeRecord(crc, r) + tail;
            var rest := r.payload + BigEndian(crc(RecordHeader(crc, r) + r.payload), 4) + tail;
            && b == RecordHeader(crc, r) + rest
            && b == RecordBody(crc, r) + (BigEndian(crc(RecordBody(crc, r)), 4) + rest)
            && b[RECORD_HEADER_SIZE..RECORD_HEADER_SIZE + |r.payload|] == r.payload
  {
  }

  /** A record cut anywhere short of its end is damaged: no checksum can be fooled, since the length in
      the intact header already tells. */
  lemma {:induction false} TornRecordIsDamaged(crc: Checksum, r: Record, cut: nat, previous: Option<nat>)
    requires Writable(r) && (previous.Some? ==> previous.value < r.sequence) && 0 < cut < RecordSize(r)
    ensures ReadRecord(crc, EncodeRecord(crc, r)[..cut], previous) == Damaged
  {
    var b := EncodeRecord(crc, r)[..cut];
    if cut >= RECORD_HEADER_SIZE {
      assert b == RecordHeader(crc, r) + b[RECORD_HEADER_SIZE..];
      HeaderIsSound(crc, r, b[RECORD_HEADER_SIZE..]);
    }
  }

  /** What is read depends only on the bytes of the record itself. */
  lemma {:induction false} ReadIsLocal(crc: Checksum, b: Bytes, previous: Option<nat>, k: nat)
    requires ReadRecord(crc, b, previous).Intact? && RecordSize(ReadRecord(crc, b, previous).record) <= k <= |b|
    ensures ReadRecord(crc, b[..k], previous) == ReadRecord(crc, b, previous)
  {
    var c := b[..k];
    var length := Field(b, 0, 4);
    FieldOfPrefix(b, k, 0, 4);
    FieldOfPrefix(b, k, 4, 2);
    FieldOfPrefix(b, k, 6, 2);
    FieldOfPrefix(b, k, 8, 8);
    FieldOfPrefix(b, k, 16, 8);
    FieldOfPrefix(b, k, 24, 4);
    FieldOfPrefix(b, k, 28, 4);
    FieldOfPrefix(b, k, RECORD_HEADER_SIZE + length, 4);
    assert c[..28] == b[..28];
    assert c[..RECORD_HEADER_SIZE + length] == b[..RECORD_HEADER_SIZE + length];
    assert c[RECORD_HEADER_SIZE..RECORD_HEADER_SIZE + length] == b[RECORD_HEADER_SIZE..RECORD_HEADER_SIZE + length];
  }

  lemma {:induction false} IntactFits(crc: Checksum, b: Bytes, previous: Option<nat>)
    requires ReadRecord(crc, b, previous).Intact?
    ensures 0 < RecordSize(ReadRecord(crc, b, previous).record) <= |b|
  {
  }

  // ---- the scan ----

  /** What a scan has visited, and where it stopped. */
  datatype Scanned<S> = Scanned(state: S, records: seq<Record>, size: nat, damaged: bool)

  function Prepend<S>(record: Record, r: Result<Scanned<S>>): Result<Scanned<S>> {
    var u :- r;
    Success(Scanned(u.state, [record] + u.records, RecordSize(record) + u.size, u.damaged))
  }

  /** The loop of `Wal::open`; each intact record is shown to the visitor. */
  function Scan<S>(
      crc: Checksum, b: Bytes, previous: Option<nat>, count: nat, max: nat, visit: (S, Record) -> Result<S>, s: S)
    : (r: Result<Scanned<S>>)
    ensures r.Success? ==> r.value.size <= |b|
    ensures r.Success? && !r.value.damaged ==> r.value.size == |b|
    decreases |b|
  {
    match ReadRecord(crc, b, previous)
    case CleanEnd => Success(Scanned(s, [], 0, false))
    case Damaged => Success(Scanned(s, [], 0, true))
    case Regressed => Failure(Replayed)
    case Intact(record) =>
      var t :- visit(s, record);
      if count + 1 > max then Failure(CapacityExceeded)
      else
        IntactFits(crc, b, previous);
        Prepend(record, Scan(crc, b[RecordSize(record)..], Some(record.sequence), count + 1, max, visit, t))
  }

  lemma {:induction false} ScanIntact<S>(
      crc: Checksum, b: Bytes, previous: Option<nat>, count: nat, max: nat, visit: (S, Record) -> Result<S>, s: S,
      record: Record)
    requires ReadRecord(crc, b, previous) == Intact(record) && visit(s, record).Success? && count + 1 <= max
    ensures RecordSize(record) <= |b|
    ensures Scan(crc, b, previous, count, max, visit, s)
         == Prepend(record,
                    Scan(crc, b[RecordSize(record)..], Some(record.sequence), count + 1, max, visit,
                         visit(s, record).value))
  {
    IntactFits(crc, b, previous);
  }

  lemma {:induction false} ScanPasses<S>(
      crc: Checksum, b: Bytes, previous: Option<nat>, count: nat, max: nat, visit: (S, Record) -> Result<S>, s: S)
    requires Scan(crc, b, previous, count, max, visit, s).Success? && ReadRecord(crc, b, previous).Intact?
    ensures count + 1 <= max && visit(s, ReadRecord(crc, b, previous).record).Success?
    ensures RecordSize(ReadRecord(crc, b, previous).record) <= Scan(crc, b, previous, count, max, visit, s).value.size
  {
  }

  /** Opening again what an open left behind visits the same records and finds no damage: for arbitrary
      bytes. */
  lemma {:induction false} ScanAgain<S>(
      crc: Checksum, b: Bytes, previous: Option<nat>, count: nat, max: nat, visit: (S, Record) -> Result<S>, s: S)
    requires Scan(crc, b, previous, count, max, visit, s).Success?
    ensures var u := Scan(crc, b, previous, count, max, visit, s).value;
            Scan(crc, b[..u.size], previous, count, max, visit, s) == Success(u.(damaged := false))
    decreases |b|
  {
    if ReadRecord(crc, b, previous).Intact? {
      var record := ReadRecord(crc, b, previous).record;
      var n := RecordSize(record);
      var size := Scan(crc, b, previous, count, max, visit, s).value.size;
      ScanPasses(crc, b, previous, count, max, visit, s);
      ScanIntact(crc, b, previous, count, max, visit, s, record);
      ReadIsLocal(crc, b, previous, size);
      ScanIntact(crc, b[..size], previous, count, max, visit, s, record);
      SliceOfSlice(b, n, size);
      ScanAgain(crc, b[n..], Some(record.sequence), count + 1, max, visit, visit(s, record).value);
    }
  }

  lemma {:induction false} SliceOfSlice(b: Bytes, n: nat, size: nat)
    requires n <= size <= |b|
    ensures b[n..][..size - n] == b[..size][n..]
  {
  }

  // ---- a log built by appends ----

  function EncodeAll(crc: Checksum, rs: seq<Record>): Bytes
    decreases |rs|
  {
    if rs == [] then [] else EncodeRecord(crc, rs[0]) + EncodeAll(crc, rs[1..])
  }

  /** Sequences increase, and the first is past `previous`. */
  predicate Appended(rs: seq<Record>, previous: Option<nat>) {
    && (forall i | 0 <= i < |rs| :: Writable(rs[i]))
    && (rs != [] && previous.Some? ==> previous.value < rs[0].sequence)
    && (forall i | 0 < i < |rs| :: rs[i - 1].sequence < rs[i].sequence)
  }

  function Visit<S>(visit: (S, Record) -> Result<S>, s: S, rs: seq<Record>): Result<S>
    decreases |rs|
  {
    if rs == [] then Success(s)
    else
      var t :- visit(s, rs[0]);
      Visit(visit, t, rs[1..])
  }

  /** The number of records that lie wholly inside the first `cut` bytes. */
  function WholeRecords(rs: seq<Record>, cut: nat): (k: nat)
    ensures k <= |rs|
    decreases |rs|
  {
    if rs == [] || cut < RecordSize(rs[0]) then 0 else 1 + WholeRecords(rs[1..], cut - RecordSize(rs[0]))
  }

  function TotalSize(rs: seq<Record>): nat
    decreases |rs|
  {
    if rs == [] then 0 else RecordSize(rs[0]) + TotalSize(rs[1..])
  }

  lemma {:induction false} EncodeAllSize(crc: Checksum, rs: seq<Record>)
    ensures |EncodeAll(crc, rs)| == TotalSize(rs)
    decreases |rs|
  {
    if rs != [] { EncodeAllSize(crc, rs[1..]); }
  }

  /** What the scan of a cut log should report. */
  function Survivors<S>(rs: seq<Record>, cut: nat, visit: (S, Record) -> Result<S>, s: S): Scanned<S>
    requires Visit(visit, s, rs[..WholeRecords(rs, cut)]).Success?
  {
    var whole := rs[..WholeRecords(rs, cut)];
    Scanned(Visit(visit, s, whole).value, whole, TotalSize(whole), TotalSize(whole) != cut)
  }

  lemma {:induction false} SurvivorsExtend<S>(rs: seq<Record>, cut: nat, visit: (S, Record) -> Result<S>, s: S)
    requires rs != [] && RecordSize(rs[0]) <= cut && Visit(visit, s, rs[..WholeRecords(rs, cut)]).Success?
    ensures var rest := cut - RecordSize(rs[0]);
            && visit(s, rs[0]).Success?
            && Visit(visit, visit(s, rs[0]).value, rs[1..][..WholeRecords(rs[1..], rest)]).Success?
            && Success(Survivors(rs, cut, visit, s))
               == Prepend(rs[0], Success(Survivors(rs[1..], rest, visit, visit(s, rs[0]).value)))
  {
    var k := WholeRecords(rs, cut);
    assert rs[..k][0] == rs[0] && rs[..k][1..] == rs[1..][..k - 1];
    assert rs[..k] == [rs[0]] + rs[1..][..k - 1];
  }

  lemma {:induction false} TornInFirst<S>(
      crc: Checksum, rs: seq<Record>, cut: nat, previous: Option<nat>, count: nat, max: nat, visit: (S,
      Record) -> Result<S>, s: S)
    requires Appended(rs, previous) && cut <= |EncodeAll(crc, rs)| && (rs == [] || cut < RecordSize(rs[0]))
    ensures Scan(crc, EncodeAll(crc, rs)[..cut], previous, count, max, visit, s) == Success(Scanned(s, [], 0, 0 != cut))
  {
    var b := EncodeAll(crc, rs)[..cut];
    if cut == 0 {
      assert b == [];
    } else {
      assert b == EncodeRecord(crc, rs[0])[..cut];
      TornRecordIsDamaged(crc, rs[0], cut, previous);
    }
  }

  /** Torn-tail recovery: of a log built by appends and cut anywhere, the scan visits exactly the records
      that lie wholly inside the cut, stops at their end, and reports damage exactly when the cut is not
      on a record boundary. */
  lemma {:induction false} TornTail<S>(
      crc: Checksum, rs: seq<Record>, cut: nat, previous: Option<nat>, count: nat, max: nat,
      visit: (S, Record) -> Result<S>, s: S)
    requires Appended(rs, previous) && cut <= |EncodeAll(crc, rs)| && count + |rs| <= max
    requires Visit(visit, s, rs[..WholeRecords(rs, cut)]).Success?
    ensures Scan(crc, EncodeAll(crc, rs)[..cut], previous, count, max, visit, s)
            == Success(Survivors(rs, cut, visit, s))
    decreases |rs|
  {
    if rs == [] || cut < RecordSize(rs[0]) {
      TornInFirst(crc, rs, cut, previous, count, max, visit, s);
    } else {
      var n := RecordSize(rs[0]);
      AppendedTail(rs, previous);
      SurvivorsExtend(rs, cut, visit, s);
      TornTail(crc, rs[1..], cut - n, Some(rs[0].sequence), count + 1, max, visit, visit(s, rs[0]).value);
      FirstIsIntact(crc, rs, cut, previous);
      ScanIntact(crc, EncodeAll(crc, rs)[..cut], previous, count, max, visit, s, rs[0]);
    }
  }

  lemma {:induction false} AppendedTail(rs: seq<Record>, previous: Option<nat>)
    requires rs != [] && Appended(rs, previous)
    ensures Appended(rs[1..], Some(rs[0].sequence)) && Writable(rs[0])
  {
  }

  lemma {:induction false} FirstIsIntact(crc: Checksum, rs: seq<Record>, cut: nat, previous: Option<nat>)
    requires Appended(rs, previous) && rs != [] && RecordSize(rs[0]) <= cut <= |EncodeAll(crc, rs)|
    ensures var b := EncodeAll(crc, rs)[..cut];
            && ReadRecord(crc, b, previous) == Intact(rs[0])
            && b[RecordSize(rs[0])..] == EncodeAll(crc, rs[1..])[..cut - RecordSize(rs[0])]
  {
    CutPastFirst(crc, rs, cut);
    RecordReadsBack(crc, rs[0], EncodeAll(crc, rs[1..])[..cut - RecordSize(rs[0])], previous);
  }

  lemma {:induction false} WholeFits(rs: seq<Record>, cut: nat)
    ensures TotalSize(rs[..WholeRecords(rs, cut)]) <= cut
    decreases |rs|
  {
    if rs != [] && cut >= RecordSize(rs[0]) {
      var k := WholeRecords(rs, cut);
      WholeFits(rs[1..], cut - RecordSize(rs[0]));
      assert rs[..k][1..] == rs[1..][..k - 1];
    }
  }

  lemma {:induction false} CutPastFirst(crc: Checksum, rs: seq<Record>, cut: nat)
    requires rs != [] && RecordSize(rs[0]) <= cut <= |EncodeAll(crc, rs)|
    ensures var rest := EncodeAll(crc, rs[1..])[..cut - RecordSize(rs[0])];
            EncodeAll(crc, rs)[..cut] == EncodeRecord(crc, rs[0]) + rest
              && EncodeAll(crc, rs)[..cut][RecordSize(rs[0])..] == rest
  {
  }

  // ---- opening a file ----

  datatype Opened<S> = Opened(file: Bytes, scanned: Scanned<S>)

  /** `Wal::open`: a missing file is created; a damaged tail is cut off. */
  function Open<S>(crc: Checksum, file: Option<Bytes>, stream: Uuid, max: nat, visit: (S, Record) -> Result<S>, s: S)
    : Result<Opened<S>>
  {
    match file
    case None => Success(Opened(MakeHeader(crc, stream), Scanned(s, [], 0, false)))
    case Some(b) =>
      if CheckHeader(crc, b) != Ok then Failure(CheckHeader(crc, b))
      else
        var u :- Scan(crc, b[WAL_HEADER_SIZE..], None, 0, max, visit, s);
        Success(Opened(b[..WAL_HEADER_SIZE + u.size], u))
  }

  lemma {:induction false} HeaderIsLocal(crc: Checksum, b: Bytes, k: nat)
    requires WAL_HEADER_SIZE <= k <= |b|
    ensures CheckHeader(crc, b[..k]) == CheckHeader(crc, b)
  {
    FieldOfPrefix(b, k, 8, 2);
    FieldOfPrefix(b, k, 10, 2);
    FieldOfPrefix(b, k, 12, 4);
    FieldOfPrefix(b, k, 56, 4);
    assert b[..k][..8] == b[..8] && b[..k][..56] == b[..56];
  }

  /** A second open after a successful one visits the same records, changes nothing and has no incident. */
  lemma {:induction false} OpenAgain<S>(
      crc: Checksum, file: Option<Bytes>, stream: Uuid, again: Uuid, max: nat, visit: (S, Record) -> Result<S>, s: S)
    requires Open(crc, file, stream, max, visit, s).Success? && stream < U128
    ensures var o := Open(crc, file, stream, max, visit, s).value;
            Open(crc, Some(o.file), again, max, visit, s) == Success(Opened(o.file, o.scanned.(damaged := false)))
  {
    var o := Open(crc, file, stream, max, visit, s).value;
    if file.None? {
      HeaderChecks(crc, stream, []);
      assert MakeHeader(crc, stream) + [] == o.file;
      assert o.file[WAL_HEADER_SIZE..] == [];
      assert o.file[..WAL_HEADER_SIZE] == o.file;
    } else {
      OpenedParts(crc, file.value, stream, max, visit, s);
      HeaderIsLocal(crc, file.value, WAL_HEADER_SIZE + o.scanned.size);
      ScanAgain(crc, file.value[WAL_HEADER_SIZE..], None, 0, max, visit, s);
    }
    OpenFrom(crc, o.file, again, max, visit, s, o.scanned.(damaged := false));
  }

  lemma {:induction false} OpenFrom<S>(
      crc: Checksum, b: Bytes, stream: Uuid, max: nat, visit: (S, Record) -> Result<S>, s: S, u: Scanned<S>)
    requires CheckHeader(crc, b) == Ok && Scan(crc, b[WAL_HEADER_SIZE..], None, 0, max, visit, s) == Success(u)
    requires b[..WAL_HEADER_SIZE + u.size] == b
    ensures Open(crc, Some(b), stream, max, visit, s) == Success(Opened(b, u))
  {
  }

  lemma {:induction false} OpenedParts<S>(
      crc: Checksum, b: Bytes, stream: Uuid, max: nat, visit: (S, Record) -> Result<S>, s: S)
    requires Open(crc, Some(b), stream, max, visit, s).Success?
    ensures var o := Open(crc, Some(b), stream, max, visit, s).value;
            && WAL_HEADER_SIZE + o.scanned.size <= |b| && o.file == b[..WAL_HEADER_SIZE + o.scanned.size]
            && CheckHeader(crc, b) == Ok
            && Scan(crc, b[WAL_HEADER_SIZE..], None, 0, max, visit, s) == Success(o.scanned)
            && o.file[WAL_HEADER_SIZE..] == b[WAL_HEADER_SIZE..][..o.scanned.size]
            && o.file[..WAL_HEADER_SIZE + o.scanned.size] == o.file
  {
  }

  function LogOf(crc: Checksum, stream: Uuid, rs: seq<Record>): Bytes {
    MakeHeader(crc, stream) + EncodeAll(crc, rs)
  }

  /** A file written by appends and cut at or past its header: exactly the whole records survive. */
  lemma {:induction false} OpenAfterCut<S>(
      crc: Checksum, stream: Uuid, again: Uuid, rs: seq<Record>, cut: nat, max: nat, visit: (S, Record) -> Result<S>,
      s: S)
    requires stream < U128 && Appended(rs, None) && |rs| <= max && WAL_HEADER_SIZE <= cut <= |LogOf(crc, stream, rs)|
    requires Visit(visit, s, rs[..WholeRecords(rs, cut - WAL_HEADER_SIZE)]).Success?
    ensures var k := WholeRecords(rs, cut - WAL_HEADER_SIZE);
            var o := Open(crc, Some(LogOf(crc, stream, rs)[..cut]), again, max, visit, s);
            && o.Success? && o.value.file == LogOf(crc, stream, rs[..k])
            && o.value.scanned.records == rs[..k] && o.value.scanned.state == Visit(visit, s, rs[..k]).value
            && (o.value.scanned.damaged <==> cut != |LogOf(crc, stream, rs[..k])|)
  {
    var k := WholeRecords(rs, cut - WAL_HEADER_SIZE);
    var b, u := LogOf(crc, stream, rs)[..cut], Survivors(rs, cut - WAL_HEADER_SIZE, visit, s);
    CutHeader(crc, stream, rs, cut);
    CutScans(crc, stream, rs, cut, max, visit, s);
    OpenOver(crc, b, again, max, visit, s, u);
    CutLog(crc, stream, rs, cut, k);
  }

  /** The cut file: its header, and as many bytes of its records. */
  lemma {:induction false} CutBytes(crc: Checksum, stream: Uuid, rs: seq<Record>, cut: nat)
    requires WAL_HEADER_SIZE <= cut <= |LogOf(crc, stream, rs)|
    ensures var b := LogOf(crc, stream, rs)[..cut];
            && b == MakeHeader(crc, stream) + EncodeAll(crc, rs)[..cut - WAL_HEADER_SIZE]
            && b[WAL_HEADER_SIZE..] == EncodeAll(crc, rs)[..cut - WAL_HEADER_SIZE]
  {
  }

  lemma {:induction false} CutHeader(crc: Checksum, stream: Uuid, rs: seq<Record>, cut: nat)
    requires stream < U128 && WAL_HEADER_SIZE <= cut <= |LogOf(crc, stream, rs)|
    ensures CheckHeader(crc, LogOf(crc, stream, rs)[..cut]) == Ok
  {
    CutBytes(crc, stream, rs, cut);
    HeaderChecks(crc, stream, EncodeAll(crc, rs)[..cut - WAL_HEADER_SIZE]);
  }

  lemma {:induction false} CutScans<S>(
      crc: Checksum, stream: Uuid, rs: seq<Record>, cut: nat, max: nat, visit: (S, Record) -> Result<S>, s: S)
    requires Appended(rs, None) && |rs| <= max && WAL_HEADER_SIZE <= cut <= |LogOf(crc, stream, rs)|
    requires Visit(visit, s, rs[..WholeRecords(rs, cut - WAL_HEADER_SIZE)]).Success?
    ensures Scan(crc, LogOf(crc, stream, rs)[..cut][WAL_HEADER_SIZE..], None, 0, max, visit, s)
         == Success(Survivors(rs, cut - WAL_HEADER_SIZE, visit, s))
  {
    CutBytes(crc, stream, rs, cut);
    TornTail(crc, rs, cut - WAL_HEADER_SIZE, None, 0, max, visit, s);
  }

  lemma {:induction false} OpenOver<S>(
      crc: Checksum, b: Bytes, stream: Uuid, max: nat, visit: (S, Record) -> Result<S>, s: S, u: Scanned<S>)
    requires CheckHeader(crc, b) == Ok && Scan(crc, b[WAL_HEADER_SIZE..], None, 0, max, visit, s) == Success(u)
    ensures WAL_HEADER_SIZE + u.size <= |b|
    ensures Open(crc, Some(b), stream, max, visit, s) == Success(Opened(b[..WAL_HEADER_SIZE + u.size], u))
  {
  }

  lemma {:induction false} TakeThrough(header: Bytes, all: Bytes, part: Bytes, cut: nat)
    requires |header| + |part| <= cut <= |header + all| && all[..|part|] == part
    ensures (header + all)[..cut][..|header| + |part|] == header + part
  {
  }

  lemma {:induction false} PartOfLog(crc: Checksum, stream: Uuid, rs: seq<Record>, part: seq<Record>, n: nat, cut: nat)
    requires n == |EncodeAll(crc, part)| && WAL_HEADER_SIZE + n <= cut <= |LogOf(crc, stream, rs)|
    requires EncodeAll(crc, rs)[..n] == EncodeAll(crc, part)
    ensures |LogOf(crc, stream, part)| == WAL_HEADER_SIZE + n
    ensures LogOf(crc, stream, rs)[..cut][..WAL_HEADER_SIZE + n] == LogOf(crc, stream, part)
  {
    TakeThrough(MakeHeader(crc, stream), EncodeAll(crc, rs), EncodeAll(crc, part), cut);
  }

  /** The whole records lie inside the cut. */
  lemma {:induction false} CutLog(crc: Checksum, stream: Uuid, rs: seq<Record>, cut: nat, k: nat)
    requires WAL_HEADER_SIZE <= cut <= |LogOf(crc, stream, rs)| && k == WholeRecords(rs, cut - WAL_HEADER_SIZE)
    ensures WAL_HEADER_SIZE + TotalSize(rs[..k]) == |LogOf(crc, stream, rs[..k])| <= cut
    ensures LogOf(crc, stream, rs)[..cut][..WAL_HEADER_SIZE + TotalSize(rs[..k])] == LogOf(crc, stream, rs[..k])
  {
    var part := WholePart(crc, rs, cut - WAL_HEADER_SIZE);
    PartOfLog(crc, stream, rs, part, TotalSize(part), cut);
  }

  lemma {:induction false} WholePart(crc: Checksum, rs: seq<Record>, cut: nat) returns (part: seq<Record>)
    ensures part == rs[..WholeRecords(rs, cut)] && |EncodeAll(crc, part)| == TotalSize(part) <= cut
    ensures TotalSize(part) <= |EncodeAll(crc, rs)| && EncodeAll(crc, rs)[..TotalSize(part)] == EncodeAll(crc, part)
  {
    part := rs[..WholeRecords(rs, cut)];
    WholeFits(rs, cut);
    EncodeAllSize(crc, part);
    EncodePrefix(crc, rs, WholeRecords(rs, cut));
  }

  lemma {:induction false} EncodePrefix(crc: Checksum, rs: seq<Record>, k: nat)
    requires k <= |rs|
    ensures TotalSize(rs[..k]) <= |EncodeAll(crc, rs)|
    ensures EncodeAll(crc, rs)[..TotalSize(rs[..k])] == EncodeAll(crc, rs[..k])
    decreases k
  {
    if k > 0 {
      EncodePrefix(crc, rs[1..], k - 1);
      assert rs[..k][1..] == rs[1..][..k - 1];
      var n := RecordSize(rs[0]);
      assert EncodeAll(crc, rs)[..TotalSize(rs[..k])]
          == EncodeRecord(crc, rs[0]) + EncodeAll(crc, rs[1..])[..TotalSize(rs[1..][..k - 1])];
    }
  }

  lemma {:induction false} EncodeAppend(crc: Checksum, rs: seq<Record>, r: Record)
    ensures EncodeAll(crc, rs + [r]) == EncodeAll(crc, rs) + EncodeRecord(crc, r)
    decreases |rs|
  {
    if rs == [] {
      assert EncodeAll(crc, [r][1..]) == [] && rs + [r] == [r];
    } else {
      assert (rs + [r])[1..] == rs[1..] + [r];
      EncodeAppend(crc, rs[1..], r);
    }
  }
}
