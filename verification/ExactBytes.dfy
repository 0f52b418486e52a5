/** What the parsers of frames, log records and snapshots accept is exactly what the writers write: no other
    bytes pass their checks (src/wire/frame.cpp, src/store/wal.cpp, src/store/snapshot.cpp). */
module ExactBytes {
  import opened Model
  import opened Wire
  import opened Wal
  import Transport
  import Snapshots
  import RegistryCodec

  // ---- fields ----

  lemma {:induction false} FieldBytes(b: Bytes)
    ensures FromBigEndian(b) < Pow256(|b|) && BigEndian(FromBigEndian(b), |b|) == b
    decreases |b|
  {
    if b != [] {
      var before, last := b[..|b| - 1], b[|b| - 1];
      FieldBytes(before);
      assert FromBigEndian(b) / 256 == FromBigEndian(before) && FromBigEndian(b) % 256 == last;
      assert b == before + [last];
    }
  }

  /** The bytes of a field are those its value is written as. */
  lemma FieldIs(b: Bytes, offset: nat, width: nat, x: nat)
    requires offset + width <= |b| && Field(b, offset, width) == x
    ensures x < Pow256(width) && b[offset..offset + width] == BigEndian(x, width)
  {
    FieldBytes(b[offset..offset + width]);
  }

  predicate FieldIn(b: Bytes, at: nat, fields: Layout, i: nat)
    requires i < |fields|
  {
    var offset, width := at + Offset(fields, i), fields[i].1;
    offset + width <= |b| && Field(b, offset, width) == fields[i].0
  }

  predicate FieldsAre(b: Bytes, at: nat, fields: Layout) {
    && at + Offset(fields, |fields|) <= |b|
    && forall i: nat {:trigger FieldIn(b, at, fields, i)} | i < |fields| :: FieldIn(b, at, fields, i)
  }

  lemma {:induction false} Glue(b: Bytes, i: nat, j: nat, k: nat)
    requires i <= j <= k <= |b|
    ensures b[i..k] == b[i..j] + b[j..k]
  {
  }

  lemma {:induction false} PackExtends(fields: Layout, n: nat)
    requires n < |fields|
    ensures Pack(fields[..n + 1]) == Pack(fields[..n]) + BigEndian(fields[n].0, fields[n].1)
  {
    assert fields[..n + 1][..n] == fields[..n];
  }

  lemma {:induction false} NextField(b: Bytes, at: nat, fields: Layout, n: nat)
    requires FieldsAre(b, at, fields) && n < |fields|
    ensures at + Offset(fields, n) <= at + Offset(fields, n + 1) <= |b|
    ensures b[at + Offset(fields, n)..at + Offset(fields, n + 1)] == BigEndian(fields[n].0, fields[n].1)
  {
    assert FieldIn(b, at, fields, n);
    FieldIs(b, at + Offset(fields, n), fields[n].1, fields[n].0);
  }

  lemma {:induction false} GlueTo(b: Bytes, i: nat, j: nat, k: nat, x: Bytes, y: Bytes, z: Bytes)
    requires i <= j <= k <= |b| && b[i..j] == x && b[j..k] == y && z == x + y
    ensures b[i..k] == z
  {
    Glue(b, i, j, k);
  }

  predicate PackedUpTo(b: Bytes, at: nat, fields: Layout, n: nat)
    requires n <= |fields|
  {
    at + Offset(fields, n) <= |b| && b[at..at + Offset(fields, n)] == Pack(fields[..n])
  }

  lemma {:induction false} PackedFurther(b: Bytes, at: nat, fields: Layout, n: nat)
    requires FieldsAre(b, at, fields) && n < |fields| && PackedUpTo(b, at, fields, n)
    ensures PackedUpTo(b, at, fields, n + 1)
  {
    NextField(b, at, fields, n);
    PackExtends(fields, n);
    GlueTo(b, at, at + Offset(fields, n), at + Offset(fields, n + 1), Pack(fields[..n]),
           BigEndian(fields[n].0, fields[n].1), Pack(fields[..n + 1]));
  }

  lemma {:induction false} PackIsUpTo(b: Bytes, at: nat, fields: Layout, n: nat)
    requires FieldsAre(b, at, fields) && n <= |fields| && at <= |b|
    ensures PackedUpTo(b, at, fields, n)
    decreases n
  {
    if n == 0 {
      assert fields[..0] == [] && b[at..at] == [];
    } else {
      PackIsUpTo(b, at, fields, n - 1);
      PackedFurther(b, at, fields, n - 1);
    }
  }

  /** Bytes with these fields, one after the other, are the packed fields. */
  lemma {:induction false} PackIs(b: Bytes, at: nat, fields: Layout)
    requires FieldsAre(b, at, fields)
    ensures b[at..at + Offset(fields, |fields|)] == Pack(fields)
  {
    PackIsUpTo(b, at, fields, |fields|);
    assert fields[..|fields|] == fields;
  }

  // ---- frames ----

  lemma HeaderIs(c: Transport.Channel, b: Bytes)
    requires Transport.DecodeHeader(c, b).Success?
    ensures var h := Transport.DecodeHeader(c, b).value;
            && |b| >= 20 && 1 <= h.kind <= 26 && h.length <= 0x10_0000 && h.flags <= 1
            && forall f: Transport.Frame :: f.kind == h.kind && |f.payload| == h.length && c.Flags() == h.flags ==>
                 Transport.EncodeHeader(c, f) == b[..20]
  {
    var h := Transport.DecodeHeader(c, b).value;
    forall f: Transport.Frame | f.kind == h.kind && |f.payload| == h.length && c.Flags() == h.flags
      ensures Transport.EncodeHeader(c, f) == b[..20]
    {
      var l := Transport.FrameLayout(c, f);
      Transport.FrameOffsets(c, f);
      assert FieldsAre(b, 4, l);
      PackIs(b, 4, l);
      assert b[..16] == b[..4] + b[4..16];
      FieldIs(b, 16, 4, c.crc(b[..16]));
      assert b[..20] == b[..16] + b[16..20];
    }
  }

  lemma CoveredIs(c: Transport.Channel, b: Bytes, f: Transport.Frame)
    requires Transport.DecodeHeader(c, b) == Success(Transport.Header(f.kind, c.Flags(), |f.payload|))
    requires var k := 20 + |f.payload|; k + 4 <= |b| && b[20..k] == f.payload && Field(b, k, 4) == c.crc(f.payload)
    ensures Transport.Covered(c, f) == b[..24 + |f.payload|]
  {
    var k := 20 + |f.payload|;
    HeaderIs(c, b);
    FieldIs(b, k, 4, c.crc(f.payload));
    Glue(b, 20, k, k + 4);
    assert b[..k + 4] == b[..20] + b[20..k + 4];
  }

  /** A frame that is yielded was written, with this very header, checksum and authentication code: on a signed
      channel nothing passes that does not carry the code of its own bytes under the channel's key. */
  lemma GotIsSent(c: Transport.Channel, b: Bytes)
    requires Transport.Next(c, b).Success? && Transport.Next(c, b).value.Got?
    ensures var f, n := Transport.Next(c, b).value.frame, Transport.Next(c, b).value.size;
            Transport.ValidFrame(f) && n == |Transport.EncodeFrame(c, f)| && b[..n] == Transport.EncodeFrame(c, f)
  {
    var f, n := Transport.Next(c, b).value.frame, Transport.Next(c, b).value.size;
    var k := 24 + |f.payload|;
    HeaderIs(c, b);
    CoveredIs(c, b, f);
    if c.Signed() { assert b[..n] == b[..k] + b[k..k + 32]; }
  }

  /** The frame on the wire, byte by byte. */
  lemma FrameOnWire(c: Transport.Channel, f: Transport.Frame)
    requires 1 <= f.kind <= 26 && |f.payload| <= 0x10_0000
    ensures Transport.ValidFrame(f)
    ensures var b, n := Transport.EncodeFrame(c, f), |f.payload|;
            && |b| == (if c.key == [] then 24 + n else 56 + n)
            && b[..4] == [0x49, 0x43, 0x46, 0x31] && Field(b, 4, 2) == 1 && Field(b, 6, 2) == f.kind
            && Field(b, 8, 4) == (if c.key == [] then 0 else 1) && Field(b, 12, 4) == n
            && Field(b, 16, 4) == c.crc(b[..16]) && b[20..20 + n] == f.payload
            && Field(b, 20 + n, 4) == c.crc(f.payload)
            && (c.key != [] ==> b[24 + n..] == BigEndian(c.mac(c.key, b[..24 + n]), 32))
  {
    var b, n := Transport.EncodeFrame(c, f), |f.payload|;
    var start := Transport.FrameStart(c, f);
    var sum := BigEndian(c.crc(start), 4);
    Transport.FrameParts(c, f, []);
    assert b + [] == b;
    assert b == start + (sum + b[20..]) && b == start + sum + b[20..];
    Transport.StartFields(c, f, sum + b[20..]);
    SumField(c.crc, start, b[20..]);
    Widths();
    BigEndianInverse(c.crc(f.payload), 4);
    if c.Signed() { assert b[24 + n..] == b[24 + n..24 + n + 32]; }
  }

  // ---- log records ----

  lemma RecordHeaderIs(crc: Checksum, b: Bytes, previous: Option<nat>)
    requires ReadRecord(crc, b, previous).Intact?
    ensures var r := ReadRecord(crc, b, previous).record;
            |b| >= 32 && b[..28] == RecordBody(crc, r) && b[..32] == RecordHeader(crc, r)
  {
    var r := ReadRecord(crc, b, previous).record;
    var l := RecordLayout(crc, r);
    RecordOffsets(crc, r);
    assert FieldsAre(b, 0, l);
    PackIs(b, 0, l);
    assert b[0..28] == b[..28];
    FieldIs(b, 28, 4, crc(b[..28]));
    Glue(b, 0, 28, 32);
  }

  lemma RecordIsWritable(crc: Checksum, b: Bytes, previous: Option<nat>)
    requires ReadRecord(crc, b, previous).Intact?
    ensures Writable(ReadRecord(crc, b, previous).record)
  {
    Widths();
    FieldIs(b, 8, 8, Field(b, 8, 8));
    FieldIs(b, 16, 8, Field(b, 16, 8));
  }

  /** A record that is read was written: no other bytes pass the three checksums and the length. */
  lemma IntactIsWritten(crc: Checksum, b: Bytes, previous: Option<nat>)
    requires ReadRecord(crc, b, previous).Intact?
    ensures var r := ReadRecord(crc, b, previous).record;
            && Writable(r) && RecordSize(r) <= |b| && b[..RecordSize(r)] == EncodeRecord(crc, r)
            && (previous.Some? ==> previous.value < r.sequence)
  {
    var r := ReadRecord(crc, b, previous).record;
    var n := 32 + |r.payload|;
    RecordIsWritable(crc, b, previous);
    RecordHeaderIs(crc, b, previous);
    FieldIs(b, n, 4, crc(b[..n]));
    Glue(b, 0, 32, n);
    Glue(b, 0, n, n + 4);
    assert b[0..32] == b[..32] && b[0..n] == b[..n] && b[0..n + 4] == b[..n + 4];
  }

  /** A record and the log header on disk, byte by byte. */
  lemma RecordOnDisk(crc: Checksum, r: Record)
    requires 1 <= r.kind <= 4 && |r.payload| <= 0x10_0000
    requires r.sequence < 0x1_0000_0000_0000_0000 && r.at < 0x1_0000_0000_0000_0000
    ensures Writable(r)
    ensures var b, n := EncodeRecord(crc, r), |r.payload|;
            && |b| == 36 + n && Field(b, 0, 4) == n && Field(b, 4, 2) == r.kind && Field(b, 6, 2) == 0
            && Field(b, 8, 8) == r.sequence
            && Field(b, 16, 8) == r.at && Field(b, 24, 4) == crc(r.payload) && Field(b, 28, 4) == crc(b[..28])
            && b[32..32 + n] == r.payload && Field(b, 32 + n, 4) == crc(b[..32 + n])
  {
    var b := EncodeRecord(crc, r);
    RecordReadsBack(crc, r, [], None);
    assert b + [] == b;
    RecordParts(crc, r, []);
    var rest := r.payload + BigEndian(crc(RecordHeader(crc, r) + r.payload), 4) + [];
    RecordFields(crc, r, BigEndian(crc(RecordBody(crc, r)), 4) + rest);
  }

  lemma LogHeaderOnDisk(crc: Checksum, stream: Uuid)
    requires stream < U128
    ensures var b := MakeHeader(crc, stream);
            && |b| == 64 && b[..8] == [0x49, 0x43, 0x46, 0x57, 0x41, 0x4C, 0x31, 0x00] && Field(b, 8, 2) == 1
            && Field(b, 10, 2) == 0 && Field(b, 12, 4) == 64 && Field(b, 16, 16) == stream
            && Field(b, 56, 4) == crc(b[..56])
  {
    var body, sum := HeaderBody(stream), BigEndian(crc(HeaderBody(stream)), 4);
    var b, f := MakeHeader(crc, stream), HeaderLayout(stream);
    SumField(crc, body, BigEndian(0, 4));
    Regroup(body, sum, BigEndian(0, 4));
    HeaderFields(stream, sum + BigEndian(0, 4));
    HeaderFits(stream);
    HeaderOffsets(stream);
    Regroup(WAL_MAGIC, Pack(f), sum + BigEndian(0, 4));
    MagicField(WAL_MAGIC, f, 3, sum + BigEndian(0, 4));
  }

  /** A log is opened exactly when it begins with such a header, whatever its stream and its reserved bytes. */
  lemma LogHeaderExactly(crc: Checksum, b: Bytes)
    ensures CheckHeader(crc, b) == Ok <==>
              && |b| >= 64 && b[..8] == [0x49, 0x43, 0x46, 0x57, 0x41, 0x4C, 0x31, 0x00] && Field(b, 8, 2) == 1
              && Field(b, 10, 2) == 0 && Field(b, 12, 4) == 64 && Field(b, 56, 4) == crc(b[..56])
  {
  }

  // ---- snapshots ----

  lemma SnapshotMetaIs(b: Bytes)
    requires |b| >= 112
    ensures b[24..112] == Pack(Snapshots.MetaLayout(Snapshots.MetaAt(b)))
  {
    var l := Snapshots.MetaLayout(Snapshots.MetaAt(b));
    Snapshots.MetaOffsets(Snapshots.MetaAt(b));
    assert FieldsAre(b, 24, l);
    PackIs(b, 24, l);
  }

  lemma SnapshotHeadIs(crc: Checksum, b: Bytes, payload: Bytes)
    requires Snapshots.Unframe(crc, b) == Success(payload)
    ensures b[..20] == Snapshots.Head(crc, payload) && b[20..24] == BigEndian(crc(b[..20]), 4)
  {
    var l := Snapshots.Preamble(crc, payload);
    Snapshots.PreambleOffsets(crc, payload);
    assert FieldsAre(b, 8, l);
    PackIs(b, 8, l);
    assert b[..20] == b[..8] + b[8..20];
    FieldIs(b, 20, 4, crc(b[..20]));
  }

  lemma LoadedParts(crc: Checksum, digest: Registry -> Digest, b: Bytes)
    requires Snapshots.DecodeSnapshot(crc, digest, b).Success?
    ensures var x := Snapshots.DecodeSnapshot(crc, digest, b).value;
            && Snapshots.Unframe(crc, b).Success? && |b| >= 112 && x.meta == Snapshots.MetaAt(b)
            && x.meta.stateDigest == digest(x.registry)
  {
  }

  /** A snapshot that is taken was written around its payload, and its registry has the digest it names. */
  lemma LoadedIsSaved(crc: Checksum, digest: Registry -> Digest, b: Bytes)
    requires Snapshots.DecodeSnapshot(crc, digest, b).Success?
    ensures var x := Snapshots.DecodeSnapshot(crc, digest, b).value;
            && Snapshots.Unframe(crc, b).Success? && b == Snapshots.Framed(crc, x.meta, Snapshots.Unframe(crc, b).value)
            && x.meta.stateDigest == digest(x.registry)
  {
    LoadedParts(crc, digest, b);
    FramedIs(crc, b, Snapshots.Unframe(crc, b).value);
  }

  lemma FramedIs(crc: Checksum, b: Bytes, payload: Bytes)
    requires Snapshots.Unframe(crc, b) == Success(payload)
    ensures b == Snapshots.Framed(crc, Snapshots.MetaAt(b), payload)
  {
    var n := 112 + |payload|;
    SnapshotHeadIs(crc, b, payload);
    SnapshotMetaIs(b);
    FieldIs(b, n, 4, crc(b[..n]));
    Joined(b, n, b[..20], b[20..24], b[24..112]);
  }

  lemma Joined(b: Bytes, n: nat, head: Bytes, sum: Bytes, meta: Bytes)
    requires |b| == n + 4 && n >= 112 && head == b[..20] && sum == b[20..24] && meta == b[24..112]
    ensures b[..n] == head + (sum + meta) + b[112..n] && b == head + (sum + meta) + b[112..n] + b[n..n + 4]
  {
  }

  /** A snapshot on disk, byte by byte. */
  lemma SnapshotOnDisk(crc: Checksum, m: Snapshots.Meta, payload: Bytes)
    requires |payload| <= 0x10_0000 && Snapshots.FitsMeta(m)
    ensures var b, n := Snapshots.Framed(crc, m, payload), |payload|;
            && |b| == 116 + n && b[..8] == [0x49, 0x43, 0x46, 0x53, 0x4E, 0x50, 0x31, 0x00] && Field(b, 8, 2) == 1
            && Field(b, 10, 2) == 0 && Field(b, 12, 4) == n && Field(b, 16, 4) == crc(payload)
            && Field(b, 20, 4) == crc(b[..20]) && Field(b, 24, 16) == m.incarnation && Field(b, 40, 8) == m.term
            && Field(b, 48, 8) == m.revision && Field(b, 56, 8) == m.sequence && Field(b, 64, 8) == m.writtenAt
            && Field(b, 72, 8) == m.truncations && Field(b, 80, 32) == m.stateDigest
            && b[112..112 + n] == payload && Field(b, 112 + n, 4) == crc(b[..112 + n])
  {
    Snapshots.UnframesBack(crc, m, payload);
    Snapshots.MetaUnframes(crc, m, payload);
  }

  /** The encoding of a registry begins with its version, 1, and whether its audit trail is included. */
  lemma PreambleOnDisk(withAudit: bool, rest: Bytes)
    ensures RegistryCodec.EncodePreamble(withAudit, rest) == [0, 1, if withAudit then 1 else 0] + rest
  {
    assert BigEndian(1, 2) == [0, 1] by { assert BigEndian(0, 1) == BigEndian(0, 0) + [0]; }
    assert BigEndian(if withAudit then 1 else 0, 1) == [if withAudit then 1 else 0];
  }
}
