/** Snapshots of the registry (src/store/snapshot.cpp). */
module Snapshots {
  import opened Model
  import opened Wire
  import opened Canonical
  import opened RegistryCodec
  import opened Wal

  const SNAPSHOT_HEADER_SIZE := 112
  const SNAPSHOT_MAGIC: Bytes := [0x49, 0x43, 0x46, 0x53, 0x4E, 0x50, 0x31, 0x00]
  const SNAPSHOT_VERSION := 1

  /** `writtenAt` is the bit pattern of the timestamp. */
  datatype Meta = Meta(
    term: nat, incarnation: Uuid, revision: nat, sequence: nat, writtenAt: nat, truncations: nat, stateDigest: Digest)

  datatype Snapshot = Snapshot(meta: Meta, registry: Registry)

  predicate FitsMeta(m: Meta) {
    && m.term < U64 && m.incarnation < U128 && m.revision < U64 && m.sequence < U64 && m.writtenAt < U64
    && m.truncations < U64 && m.stateDigest < U256
  }

  /** The twelve bytes after the magic: version, flags, payload length, payload checksum. */
  function Preamble(crc: Checksum, payload: Bytes): Layout {
    [(SNAPSHOT_VERSION, 2), (0, 2), (|payload|, 4), (crc(payload), 4)]
  }

  lemma {:induction false} PreambleOffsets(crc: Checksum, payload: Bytes)
    ensures var f := Preamble(crc, payload);
            Offset(f, 1) == 2 && Offset(f, 2) == 4 && Offset(f, 3) == 8 && Offset(f, |f|) == 12
  {
    var f := Preamble(crc, payload);
    assert Offset(f, 1) == 2;
    assert Offset(f, 2) == 4;
    assert Offset(f, 3) == 8;
  }

  function MetaLayout(m: Meta): Layout {
    [(m.incarnation, 16), (m.term, 8), (m.revision, 8), (m.sequence, 8), (m.writtenAt, 8), (m.truncations, 8),
     (m.stateDigest, 32)]
  }

  lemma {:induction false} MetaOffsets(m: Meta)
    ensures var f := MetaLayout(m);
            && Offset(f, 1) == 16 && Offset(f, 2) == 24 && Offset(f, 3) == 32 && Offset(f, 4) == 40
            && Offset(f, 5) == 48
            && Offset(f, 6) == 56 && Offset(f, |f|) == 88
  {
    var f := MetaLayout(m);
    assert Offset(f, 1) == 16;
    assert Offset(f, 2) == 24;
    assert Offset(f, 3) == 32;
    assert Offset(f, 4) == 40;
    assert Offset(f, 5) == 48;
    assert Offset(f, 6) == 56;
  }

  function Head(crc: Checksum, payload: Bytes): (b: Bytes)
    ensures |b| == 20
  {
    PreambleOffsets(crc, payload);
    SNAPSHOT_MAGIC + Pack(Preamble(crc, payload))
  }

  function SnapshotHeader(crc: Checksum, m: Meta, payload: Bytes): (b: Bytes)
    ensures |b| == SNAPSHOT_HEADER_SIZE
  {
    MetaOffsets(m);
    Head(crc, payload) + (BigEndian(crc(Head(crc, payload)), 4) + Pack(MetaLayout(m)))
  }

  /** The file around an encoded registry. */
  function Framed(crc: Checksum, m: Meta, payload: Bytes): (b: Bytes)
    ensures |b| == SNAPSHOT_HEADER_SIZE + |payload| + 4
  {
    var checked := SnapshotHeader(crc, m, payload) + payload;
    checked + BigEndian(crc(checked), 4)
  }

  function MetaAt(b: Bytes): Meta
    requires |b| >= SNAPSHOT_HEADER_SIZE
  {
    Meta(Field(b, 40, 8), Field(b, 24, 16), Field(b, 48, 8), Field(b, 56, 8), Field(b, 64, 8), Field(b, 72, 8),
         Field(b, 80, 32))
  }

  /** The checks of `decode_snapshot` up to the payload. */
  function Unframe(crc: Checksum, b: Bytes): Result<Bytes> {
    if |b| < SNAPSHOT_HEADER_SIZE + 4 then Failure(Incomplete)
    else if b[..8] != SNAPSHOT_MAGIC then Failure(Corrupt)
    else if Field(b, 8, 2) != SNAPSHOT_VERSION then Failure(Incompatible)
    else if Field(b, 10, 2) != 0 then Failure(Invalid)
    else if Field(b, 20, 4) != crc(b[..20]) then Failure(Corrupt)
    else
      var length := Field(b, 12, 4);
      if length > MAX_RECORD_PAYLOAD then Failure(CapacityExceeded)
      else if |b| != SNAPSHOT_HEADER_SIZE + length + 4 then Failure(Incomplete)
      else
        var payload := b[SNAPSHOT_HEADER_SIZE..SNAPSHOT_HEADER_SIZE + length];
        if Field(b, SNAPSHOT_HEADER_SIZE + length, 4) != crc(b[..SNAPSHOT_HEADER_SIZE + length]) then Failure(Corrupt)
        else if Field(b, 16, 4) != crc(payload) then Failure(Corrupt)
        else Success(payload)
  }

  /** `decode_snapshot`; `digest` stands for `Registry::digest`. */
  function DecodeSnapshot(crc: Checksum, digest: Registry -> Digest, b: Bytes): Result<Snapshot> {
    var payload :- Unframe(crc, b);
    var r :- DecodeRegistry(payload);
    if |b| < SNAPSHOT_HEADER_SIZE || MetaAt(b).stateDigest != digest(r) then Failure(Corrupt)
    else Success(Snapshot(MetaAt(b), r))
  }

  /** `encode_snapshot`. */
  ghost function EncodeSnapshot(crc: Checksum, digest: Registry -> Digest, m: Meta, r: Registry): Result<Bytes>
    requires CompleteRegistry(r)
  {
    var payload := EncodeRegistry(r, true);
    if |payload| > MAX_RECORD_PAYLOAD then Failure(CapacityExceeded)
    else Success(Framed(crc, m.(stateDigest := digest(r)), payload))
  }

  // ---- round trip ----

  lemma {:induction false} HeadFields(crc: Checksum, payload: Bytes, tail: Bytes)
    requires |payload| < U32
    ensures var b := Head(crc, payload) + tail;
            && b[..8] == SNAPSHOT_MAGIC && Field(b, 8, 2) == SNAPSHOT_VERSION && Field(b, 10, 2) == 0
            && Field(b, 12, 4) == |payload| && Field(b, 16, 4) == crc(payload) && b[..20] == Head(crc, payload)
  {
    var f := Preamble(crc, payload);
    PreambleFits(crc, payload);
    PreambleOffsets(crc, payload);
    Regroup(SNAPSHOT_MAGIC, Pack(f), tail);
    MagicField(SNAPSHOT_MAGIC, f, 0, tail);
    MagicField(SNAPSHOT_MAGIC, f, 1, tail);
    MagicField(SNAPSHOT_MAGIC, f, 2, tail);
    MagicField(SNAPSHOT_MAGIC, f, 3, tail);
  }

  lemma {:induction false} PreambleFits(crc: Checksum, payload: Bytes)
    requires |payload| < U32
    ensures Fit(Preamble(crc, payload))
  {
    Widths();
  }

  lemma {:induction false} PackedMeta(m: Meta, tail: Bytes)
    requires FitsMeta(m)
    ensures var p := Pack(MetaLayout(m)) + tail;
            && |p| >= 88 && Field(p, 0, 16) == m.incarnation && Field(p, 16, 8) == m.term
            && Field(p, 24, 8) == m.revision
            && Field(p, 32, 8) == m.sequence && Field(p, 40, 8) == m.writtenAt && Field(p, 48, 8) == m.truncations
            && Field(p, 56, 32) == m.stateDigest
  {
    Widths();
    MetaOffsets(m);
    var f := MetaLayout(m);
    PackedField(f, 0, tail);
    PackedField(f, 1, tail);
    PackedField(f, 2, tail);
    PackedField(f, 3, tail);
    PackedField(f, 4, tail);
    PackedField(f, 5, tail);
    PackedField(f, 6, tail);
  }

  lemma {:induction false} MetaReadsBack(before: Bytes, m: Meta, tail: Bytes)
    requires FitsMeta(m) && |before| == 24
    ensures |before + (Pack(MetaLayout(m)) + tail)| >= SNAPSHOT_HEADER_SIZE
    ensures MetaAt(before + (Pack(MetaLayout(m)) + tail)) == m
  {
    var p := Pack(MetaLayout(m)) + tail;
    PackedMeta(m, tail);
    FieldAfter(before, p, 0, 16);
    FieldAfter(before, p, 16, 8);
    FieldAfter(before, p, 24, 8);
    FieldAfter(before, p, 32, 8);
    FieldAfter(before, p, 40, 8);
    FieldAfter(before, p, 48, 8);
    FieldAfter(before, p, 56, 32);
  }

  /** The pieces of a framed file. */
  lemma {:induction false} FrameParts(crc: Checksum, m: Meta, payload: Bytes)
    ensures var b, head := Framed(crc, m, payload), Head(crc, payload);
            var sum := BigEndian(crc(head), 4);
            var checked := SnapshotHeader(crc, m, payload) + payload;
            var trailer := BigEndian(crc(checked), 4);
            && b == head + (sum + Pack(MetaLayout(m)) + payload + trailer)
            && b == head + sum + (Pack(MetaLayout(m)) + (payload + trailer))
            && b == checked + trailer
            && b[..SNAPSHOT_HEADER_SIZE + |payload|] == checked
            && b[SNAPSHOT_HEADER_SIZE..SNAPSHOT_HEADER_SIZE + |payload|] == payload
  {
  }

  lemma {:induction false} UnframesBack(crc: Checksum, m: Meta, payload: Bytes)
    requires |payload| <= MAX_RECORD_PAYLOAD
    ensures Unframe(crc, Framed(crc, m, payload)) == Success(payload)
  {
    Widths();
    var b, head := Framed(crc, m, payload), Head(crc, payload);
    var sum := BigEndian(crc(head), 4);
    var checked := SnapshotHeader(crc, m, payload) + payload;
    var trailer := BigEndian(crc(checked), 4);
    FrameParts(crc, m, payload);
    HeadFields(crc, payload, sum + Pack(MetaLayout(m)) + payload + trailer);
    FieldOfPart(head, crc(head), 4, Pack(MetaLayout(m)) + (payload + trailer));
    FieldOfPart(checked, crc(checked), 4, []);
    assert checked + trailer + [] == b;
  }

  lemma {:induction false} MetaUnframes(crc: Checksum, m: Meta, payload: Bytes)
    requires FitsMeta(m)
    ensures MetaAt(Framed(crc, m, payload)) == m
  {
    var head := Head(crc, payload);
    var sum := BigEndian(crc(head), 4);
    FrameParts(crc, m, payload);
    MetaReadsBack(head + sum, m, payload + BigEndian(crc(SnapshotHeader(crc, m, payload) + payload), 4));
  }

  lemma {:induction false} FramedReadsBack(
      crc: Checksum, digest: Registry -> Digest, m: Meta, payload: Bytes, r: Registry)
    requires |payload| <= MAX_RECORD_PAYLOAD && DecodeRegistry(payload) == Success(r) && FitsMeta(m)
    requires m.stateDigest == digest(r)
    ensures DecodeSnapshot(crc, digest, Framed(crc, m, payload)) == Success(Snapshot(m, r))
  {
    UnframesBack(crc, m, payload);
    MetaUnframes(crc, m, payload);
  }

  /** Every encoded snapshot passes its own checksum and digest checks and holds what was saved. */
  lemma {:induction false} SnapshotReadsBack(crc: Checksum, digest: Registry -> Digest, m: Meta, r: Registry)
    requires CompleteRegistry(r) && EncodeSnapshot(crc, digest, m, r).Success? && FitsMeta(m.(stateDigest := digest(r)))
    ensures DecodeSnapshot(crc, digest, EncodeSnapshot(crc, digest, m, r).value)
         == Success(Snapshot(m.(stateDigest := digest(r)), r))
  {
    FramedReadsBack(crc, digest, m.(stateDigest := digest(r)), EncodeRegistry(r, true), r);
  }
}
