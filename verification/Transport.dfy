/** Framed transport (src/wire/frame.cpp) and the send queue of a connection (src/net/reactor.cpp).
    Checksum and message authentication code are parameters of which nothing is assumed. */
module Transport {
  import opened Model
  import opened Wire
  import opened Wal

  const FRAME_MAGIC: Bytes := [0x49, 0x43, 0x46, 0x31]
  const FRAME_VERSION := 1
  const FRAME_HEADER_SIZE := 20
  const FRAME_TRAILER_SIZE := 4
  const MAC_SIZE := 32
  const MAX_FRAME_PAYLOAD := 0x10_0000
  const MAX_MESSAGE_TYPE := 26
  const FLAG_SIGNED := 1

  type Word256 = n: nat | n < U256 witness 0

  /** A channel: its checksum, its authentication code, and its key; an empty key means unsigned frames. */
  datatype Channel = Channel(crc: Checksum, mac: (Bytes, Bytes) -> Word256, key: Bytes) {
    predicate Signed() { key != [] }
    function Flags(): nat { if Signed() then FLAG_SIGNED else 0 }
  }

  datatype Frame = Frame(kind: nat, payload: Bytes)

  predicate ValidFrame(f: Frame) {
    1 <= f.kind <= MAX_MESSAGE_TYPE && |f.payload| <= MAX_FRAME_PAYLOAD
  }

  function WireSize(length: nat, signed: bool): nat {
    FRAME_HEADER_SIZE + FRAME_TRAILER_SIZE + length + if signed then MAC_SIZE else 0
  }

  // ---- encoding ----

  function FrameLayout(c: Channel, f: Frame): Layout {
    [(FRAME_VERSION, 2), (f.kind, 2), (c.Flags(), 4), (|f.payload|, 4)]
  }

  lemma {:induction false} FrameOffsets(c: Channel, f: Frame)
    ensures var l := FrameLayout(c, f);
            Offset(l, 1) == 2 && Offset(l, 2) == 4 && Offset(l, 3) == 8 && Offset(l, |l|) == 12
  {
    var l := FrameLayout(c, f);
    assert Offset(l, 1) == 2;
    assert Offset(l, 2) == 4;
    assert Offset(l, 3) == 8;
  }

  function FrameStart(c: Channel, f: Frame): (b: Bytes)
    ensures |b| == 16
  {
    FrameOffsets(c, f);
    FRAME_MAGIC + Pack(FrameLayout(c, f))
  }

  /** `encode_frame_header`. */
  function EncodeHeader(c: Channel, f: Frame): (b: Bytes)
    ensures |b| == FRAME_HEADER_SIZE
  {
    FrameStart(c, f) + BigEndian(c.crc(FrameStart(c, f)), 4)
  }

  /** The bytes the authentication code covers. */
  function Covered(c: Channel, f: Frame): (b: Bytes)
    ensures |b| == FRAME_HEADER_SIZE + |f.payload| + FRAME_TRAILER_SIZE
  {
    EncodeHeader(c, f) + (f.payload + BigEndian(c.crc(f.payload), 4))
  }

  /** What `append_frame` adds to its buffer. */
  function EncodeFrame(c: Channel, f: Frame): (b: Bytes)
    ensures |b| == WireSize(|f.payload|, c.Signed())
  {
    if c.Signed() then Covered(c, f) + BigEndian(c.mac(c.key, Covered(c, f)), MAC_SIZE) else Covered(c, f)
  }

  // ---- decoding ----

  datatype Header = Header(kind: nat, flags: nat, length: nat)

  /** `decode_frame_header`. */
  function DecodeHeader(c: Channel, b: Bytes): Result<Header> {
    if |b| < FRAME_HEADER_SIZE then Failure(Incomplete)
    else if b[..4] != FRAME_MAGIC then Failure(Invalid)
    else if Field(b, 16, 4) != c.crc(b[..16]) then Failure(Corrupt)
    else if Field(b, 4, 2) != FRAME_VERSION then Failure(Incompatible)
    else if Field(b, 6, 2) == 0 || Field(b, 6, 2) > MAX_MESSAGE_TYPE then Failure(Invalid)
    else if Field(b, 8, 4) > FLAG_SIGNED then Failure(Invalid)
    else if Field(b, 12, 4) > MAX_FRAME_PAYLOAD then Failure(Invalid)
    else Success(Header(Field(b, 6, 2), Field(b, 8, 4), Field(b, 12, 4)))
  }

  /** A whole frame at the start of the buffer, or nothing yet. */
  datatype Step = Wait | Got(frame: Frame, size: nat)

  /** `FrameParser::next`. */
  function Next(c: Channel, b: Bytes): (r: Result<Step>)
    ensures r.Success? && r.value.Got? ==> 0 < r.value.size <= |b|
  {
    if |b| < FRAME_HEADER_SIZE then Success(Wait)
    else
      var h :- DecodeHeader(c, b);
      var signed := h.flags == FLAG_SIGNED;
      if signed != c.Signed() then Failure(Invalid)
      else
        var total := WireSize(h.length, signed);
        if |b| < total then Success(Wait)
        else
          var payload := b[FRAME_HEADER_SIZE..FRAME_HEADER_SIZE + h.length];
          var covered := FRAME_HEADER_SIZE + h.length + FRAME_TRAILER_SIZE;
          if Field(b, FRAME_HEADER_SIZE + h.length, 4) != c.crc(payload) then Failure(Corrupt)
          else if signed && b[covered..covered + MAC_SIZE] != BigEndian(c.mac(c.key, b[..covered]), MAC_SIZE)
            then Failure(Unauthorized)
          else Success(Got(Frame(h.kind, payload), total))
  }

  // ---- one frame ----

  lemma {:induction false} StartFields(c: Channel, f: Frame, tail: Bytes)
    requires ValidFrame(f)
    ensures var b := FrameStart(c, f) + tail;
            && b[..4] == FRAME_MAGIC && Field(b, 4, 2) == FRAME_VERSION && Field(b, 6, 2) == f.kind
            && Field(b, 8, 4) == c.Flags() && Field(b, 12, 4) == |f.payload| && b[..16] == FrameStart(c, f)
  {
    var l := FrameLayout(c, f);
    FrameFits(c, f);
    FrameOffsets(c, f);
    Regroup(FRAME_MAGIC, Pack(l), tail);
    MagicField(FRAME_MAGIC, l, 0, tail);
    MagicField(FRAME_MAGIC, l, 1, tail);
    MagicField(FRAME_MAGIC, l, 2, tail);
    MagicField(FRAME_MAGIC, l, 3, tail);
  }

  lemma {:induction false} FrameFits(c: Channel, f: Frame)
    requires ValidFrame(f)
    ensures Fit(FrameLayout(c, f))
  {
    Widths();
  }

  lemma {:induction false} HeaderReadsBack(c: Channel, f: Frame, tail: Bytes)
    requires ValidFrame(f)
    ensures DecodeHeader(c, EncodeHeader(c, f) + tail) == Success(Header(f.kind, c.Flags(), |f.payload|))
  {
    var start := FrameStart(c, f);
    var sum := BigEndian(c.crc(start), 4);
    assert start + sum + tail == start + (sum + tail);
    StartFields(c, f, sum + tail);
    SumField(c.crc, start, tail);
  }

  lemma {:induction false} FrameParts(c: Channel, f: Frame, tail: Bytes)
    ensures var b := EncodeFrame(c, f) + tail;
            var n := FRAME_HEADER_SIZE + |f.payload|;
            && b == EncodeHeader(c, f) + b[FRAME_HEADER_SIZE..]
            && b[FRAME_HEADER_SIZE..n] == f.payload
            && b[n..n + 4] == BigEndian(c.crc(f.payload), 4)
            && b[..n + 4] == Covered(c, f)
            && (c.Signed() ==> b[n + 4..n + 4 + MAC_SIZE] == BigEndian(c.mac(c.key, Covered(c, f)), MAC_SIZE))
  {
  }

  /** A frame that has arrived whole is yielded, whatever follows it. */
  lemma {:induction false} FrameReadsBack(c: Channel, f: Frame, tail: Bytes)
    requires ValidFrame(f)
    ensures Next(c, EncodeFrame(c, f) + tail) == Success(Got(f, |EncodeFrame(c, f)|))
  {
    Widths();
    var b := EncodeFrame(c, f) + tail;
    FrameParts(c, f, tail);
    HeaderReadsBack(c, f, b[FRAME_HEADER_SIZE..]);
    BigEndianInverse(c.crc(f.payload), 4);
  }

  /** A frame that has not arrived whole is waited for. */
  lemma {:induction false} PartialWaits(c: Channel, f: Frame, k: nat)
    requires ValidFrame(f) && k < |EncodeFrame(c, f)|
    ensures Next(c, EncodeFrame(c, f)[..k]) == Success(Wait)
  {
    var b := EncodeFrame(c, f)[..k];
    if k >= FRAME_HEADER_SIZE {
      FrameParts(c, f, []);
      assert EncodeFrame(c, f) + [] == EncodeFrame(c, f);
      assert b == EncodeHeader(c, f) + b[FRAME_HEADER_SIZE..];
      HeaderReadsBack(c, f, b[FRAME_HEADER_SIZE..]);
    }
  }

  // ---- a stream of frames ----

  function EncodeFrames(c: Channel, fs: seq<Frame>): Bytes
    decreases |fs|
  {
    if fs == [] then [] else EncodeFrame(c, fs[0]) + EncodeFrames(c, fs[1..])
  }

  predicate ValidFrames(fs: seq<Frame>) { forall i | 0 <= i < |fs| :: ValidFrame(fs[i]) }

  lemma {:induction false} EncodeSplit(c: Channel, fs: seq<Frame>, gs: seq<Frame>)
    ensures EncodeFrames(c, fs + gs) == EncodeFrames(c, fs) + EncodeFrames(c, gs)
    decreases |fs|
  {
    if fs == [] {
      assert fs + gs == gs;
    } else {
      assert (fs + gs)[1..] == fs[1..] + gs;
      EncodeSplit(c, fs[1..], gs);
    }
  }

  predicate IsPrefix(a: Bytes, b: Bytes) { |a| <= |b| && b[..|a|] == a }

  /** On any prefix of a stream of frames the parser waits, or yields the first frame. */
  lemma {:induction false} NextOfStream(c: Channel, fs: seq<Frame>, b: Bytes)
    requires ValidFrames(fs) && IsPrefix(b, EncodeFrames(c, fs))
    ensures Next(c, b) == if fs == [] || |b| < |EncodeFrame(c, fs[0])| then Success(Wait)
                          else Success(Got(fs[0], |EncodeFrame(c, fs[0])|))
    ensures fs != [] && |b| >= |EncodeFrame(c, fs[0])| ==>
            IsPrefix(b[|EncodeFrame(c, fs[0])|..], EncodeFrames(c, fs[1..]))
  {
    if fs != [] {
      var one := EncodeFrame(c, fs[0]);
      if |b| < |one| {
        assert b == one[..|b|];
        PartialWaits(c, fs[0], |b|);
      } else {
        assert b == one + b[|one|..];
        FrameReadsBack(c, fs[0], b[|one|..]);
      }
    }
  }

  /** What the receiving side has: the frames handed out and the bytes kept. */
  datatype Receiver = Receiver(got: seq<Frame>, buffer: Bytes)

  /** Bytes arrive, or the next frame is asked for. */
  datatype Event = Arrives(chunk: Bytes) | Asks

  function React(c: Channel, r: Receiver, e: Event): Receiver {
    match e
    case Arrives(chunk) => r.(buffer := r.buffer + chunk)
    case Asks =>
      match Next(c, r.buffer)
      case Success(Got(f, n)) => Receiver(r.got + [f], r.buffer[n..])
      case _ => r
  }

  function Receive(c: Channel, r: Receiver, events: seq<Event>): Receiver
    decreases |events|
  {
    if events == [] then r else React(c, Receive(c, r, events[..|events| - 1]), events[|events| - 1])
  }

  function Arrived(events: seq<Event>): Bytes
    decreases |events|
  {
    if events == [] then []
    else
      var before, e := Arrived(events[..|events| - 1]), events[|events| - 1];
      if e.Arrives? then before + e.chunk else before
  }

  /** The frames so far are the first ones sent and the buffer is what has arrived of the rest. */
  predicate InStep(c: Channel, fs: seq<Frame>, r: Receiver, arrived: Bytes) {
    && |r.got| <= |fs| && r.got == fs[..|r.got|]
    && EncodeFrames(c, r.got) + r.buffer == arrived
    && IsPrefix(r.buffer, EncodeFrames(c, fs[|r.got|..]))
  }

  lemma {:induction false} PrefixOfRest(head: Bytes, x: Bytes, rest: Bytes)
    requires IsPrefix(head + x, head + rest)
    ensures IsPrefix(x, rest)
  {
    assert (head + x)[|head|..] == x;
    assert (head + rest)[..|head + x|][|head|..] == rest[..|x|];
  }

  lemma {:induction false} PrefixTransitive(a: Bytes, b: Bytes, c: Bytes)
    requires IsPrefix(a, b) && IsPrefix(b, c)
    ensures IsPrefix(a, c)
  {
    assert c[..|b|][..|a|] == c[..|a|];
  }

  lemma {:induction false} ArrivesInStep(c: Channel, fs: seq<Frame>, r: Receiver, arrived: Bytes, chunk: Bytes)
    requires InStep(c, fs, r, arrived) && IsPrefix(arrived + chunk, EncodeFrames(c, fs))
    ensures InStep(c, fs, Receiver(r.got, r.buffer + chunk), arrived + chunk)
  {
    var head, rest := EncodeFrames(c, r.got), EncodeFrames(c, fs[|r.got|..]);
    assert fs == r.got + fs[|r.got|..];
    EncodeSplit(c, r.got, fs[|r.got|..]);
    Regroup(head, r.buffer, chunk);
    PrefixOfRest(head, r.buffer + chunk, rest);
  }

  lemma {:induction false} GotInStep(c: Channel, fs: seq<Frame>, r: Receiver, arrived: Bytes)
    requires ValidFrames(fs) && InStep(c, fs, r, arrived) && |r.got| < |fs|
    requires IsPrefix(EncodeFrame(c, fs[|r.got|]), r.buffer)
    requires var n := |EncodeFrame(c, fs[|r.got|])|; IsPrefix(r.buffer[n..], EncodeFrames(c, fs[|r.got| + 1..]))
    ensures InStep(c, fs, Receiver(r.got + [fs[|r.got|]], r.buffer[|EncodeFrame(c, fs[|r.got|])|..]), arrived)
  {
    var f := fs[|r.got|];
    var one := EncodeFrame(c, f);
    FramesLast(c, r.got, f);
    Consumed(EncodeFrames(c, r.got), one, r.buffer);
    OneMore(fs, |r.got|);
  }

  lemma {:induction false} Consumed(head: Bytes, one: Bytes, buffer: Bytes)
    requires IsPrefix(one, buffer)
    ensures head + one + buffer[|one|..] == head + buffer
  {
  }

  lemma {:induction false} OneMore(fs: seq<Frame>, k: nat)
    requires k < |fs|
    ensures fs[..k] + [fs[k]] == fs[..k + 1]
  {
  }

  lemma {:induction false} AsksInStep(c: Channel, fs: seq<Frame>, r: Receiver, arrived: Bytes)
    requires ValidFrames(fs) && InStep(c, fs, r, arrived)
    ensures InStep(c, fs, React(c, r, Asks), arrived) && Next(c, r.buffer).Success?
    ensures Next(c, r.buffer) == Success(Wait) && arrived == EncodeFrames(c, fs) ==> r == Receiver(fs, [])
  {
    var rest := fs[|r.got|..];
    NextOfStream(c, rest, r.buffer);
    if rest != [] && |r.buffer| >= |EncodeFrame(c, rest[0])| {
      assert rest[1..] == fs[|r.got| + 1..];
      FirstIsPrefix(c, rest, r.buffer);
      GotInStep(c, fs, r, arrived);
    } else if arrived == EncodeFrames(c, fs) {
      WaitMeansDone(c, fs, r, arrived);
    }
  }

  lemma {:induction false} FirstIsPrefix(c: Channel, fs: seq<Frame>, b: Bytes)
    requires fs != [] && IsPrefix(b, EncodeFrames(c, fs)) && |b| >= |EncodeFrame(c, fs[0])|
    ensures IsPrefix(EncodeFrame(c, fs[0]), b)
  {
  }

  lemma {:induction false} AllOrMore(c: Channel, fs: seq<Frame>)
    requires fs != []
    ensures |EncodeFrames(c, fs)| >= |EncodeFrame(c, fs[0])|
  {
  }

  lemma {:induction false} WholeBuffer(c: Channel, fs: seq<Frame>, r: Receiver)
    requires |r.got| <= |fs| && r.got == fs[..|r.got|] && EncodeFrames(c, r.got) + r.buffer == EncodeFrames(c, fs)
    ensures |r.buffer| == |EncodeFrames(c, fs[|r.got|..])|
  {
    assert fs == r.got + fs[|r.got|..];
    EncodeSplit(c, r.got, fs[|r.got|..]);
    SameLength(EncodeFrames(c, r.got), r.buffer, EncodeFrames(c, fs[|r.got|..]));
  }

  lemma {:induction false} WaitMeansDone(c: Channel, fs: seq<Frame>, r: Receiver, arrived: Bytes)
    requires InStep(c, fs, r, arrived) && arrived == EncodeFrames(c, fs)
    requires var rest := fs[|r.got|..]; rest == [] || |r.buffer| < |EncodeFrame(c, rest[0])|
    ensures r == Receiver(fs, [])
  {
    WholeBuffer(c, fs, r);
    if fs[|r.got|..] != [] { AllOrMore(c, fs[|r.got|..]); }
  }

  lemma {:induction false} SameLength(head: Bytes, a: Bytes, b: Bytes)
    requires head + a == head + b
    ensures |a| == |b|
  {
    assert |head + a| == |head| + |a| && |head + b| == |head| + |b|;
  }

  /** Whatever the pattern of arrivals and requests: the parser never reports an error, hands out exactly
      the frames sent, in order, and once all bytes are there and it waits, it has handed out all of them
      and keeps nothing. */
  lemma {:induction false} StreamDelivered(c: Channel, fs: seq<Frame>, events: seq<Event>)
    requires ValidFrames(fs) && IsPrefix(Arrived(events), EncodeFrames(c, fs))
    ensures var r := Receive(c, Receiver([], []), events);
            && InStep(c, fs, r, Arrived(events)) && Next(c, r.buffer).Success?
            && (Arrived(events) == EncodeFrames(c, fs) && Next(c, r.buffer) == Success(Wait) ==> r == Receiver(fs, []))
    decreases |events|
  {
    if events != [] {
      var before, e := events[..|events| - 1], events[|events| - 1];
      ArrivedPrefix(EncodeFrames(c, fs), events);
      StreamDelivered(c, fs, before);
      if e.Arrives? { ArrivesInStep(c, fs, Receive(c, Receiver([], []), before), Arrived(before), e.chunk); }
      else { AsksInStep(c, fs, Receive(c, Receiver([], []), before), Arrived(before)); }
    } else {
      StartsInStep(c, fs);
    }
    AsksInStep(c, fs, Receive(c, Receiver([], []), events), Arrived(events));
  }

  lemma {:induction false} StartsInStep(c: Channel, fs: seq<Frame>)
    ensures InStep(c, fs, Receiver([], []), [])
  {
    assert fs[..0] == [] && fs[0..] == fs;
  }

  lemma {:induction false} ArrivedGrows(events: seq<Event>)
    requires events != []
    ensures IsPrefix(Arrived(events[..|events| - 1]), Arrived(events))
  {
    var before := Arrived(events[..|events| - 1]);
    if events[|events| - 1].Arrives? { assert (before + events[|events| - 1].chunk)[..|before|] == before; }
  }

  lemma {:induction false} ArrivedPrefix(stream: Bytes, events: seq<Event>)
    requires events != [] && IsPrefix(Arrived(events), stream)
    ensures IsPrefix(Arrived(events[..|events| - 1]), stream)
  {
    ArrivedGrows(events);
    PrefixTransitive(Arrived(events[..|events| - 1]), Arrived(events), stream);
  }

  // ---- what a push admits ----

  /** What `push` admits: no more bytes than one largest frame can need. */
  predicate Admits(maxPayload: nat, buffered: nat, incoming: nat) {
    buffered + incoming <= WireSize(maxPayload, true)
  }

  /** A parser in step that waits holds less than one frame. */
  lemma {:induction false} WaitingHoldsPart(c: Channel, fs: seq<Frame>, r: Receiver, arrived: Bytes)
    requires ValidFrames(fs) && InStep(c, fs, r, arrived) && Next(c, r.buffer) == Success(Wait)
    ensures r.buffer == [] || (|r.got| < |fs| && |r.buffer| < |EncodeFrame(c, fs[|r.got|])|)
  {
    NextOfStream(c, fs[|r.got|..], r.buffer);
  }

  /** A receiver that asked until it had to wait, and the next `n` bytes of the stream. */
  ghost predicate WaitsFor(c: Channel, fs: seq<Frame>, r: Receiver, arrived: Bytes, n: nat) {
    InStep(c, fs, r, arrived) && Next(c, r.buffer) == Success(Wait) && |arrived| + n <= |EncodeFrames(c, fs)|
  }

  /** Reads of at most `chunk` bytes are never refused. */
  ghost predicate NeverRefused(c: Channel, fs: seq<Frame>, maxPayload: nat, chunk: nat) {
    forall r, arrived, n: nat :: n <= chunk && WaitsFor(c, fs, r, arrived, n) ==> Admits(maxPayload, |r.buffer|, n)
  }

  /** The most that can be buffered while frame `i` is waited for: all but its last byte, and a read that
      ends with the stream at the latest. */
  function Crest(c: Channel, fs: seq<Frame>, i: nat, chunk: nat): nat
    requires i < |fs|
  {
    var all, last := |EncodeFrames(c, fs[i..])|, |EncodeFrame(c, fs[i])| - 1 + chunk;
    if all < last then all else last
  }

  lemma {:induction false} StreamLength(c: Channel, fs: seq<Frame>, k: nat)
    requires k <= |fs|
    ensures |EncodeFrames(c, fs)| == |EncodeFrames(c, fs[..k])| + |EncodeFrames(c, fs[k..])|
    ensures k < |fs| ==> |EncodeFrames(c, fs[k..])| >= |EncodeFrame(c, fs[k])|
  {
    assert fs == fs[..k] + fs[k..];
    EncodeSplit(c, fs[..k], fs[k..]);
  }

  lemma {:induction false} WaitingIsBelow(
      c: Channel, fs: seq<Frame>, r: Receiver, arrived: Bytes, chunk: nat, n: nat)
    requires ValidFrames(fs) && WaitsFor(c, fs, r, arrived, n) && n <= chunk && |r.buffer| + n > 0
    ensures |r.got| < |fs| && |r.buffer| + n <= Crest(c, fs, |r.got|, chunk)
  {
    WaitingHoldsPart(c, fs, r, arrived);
    StreamLength(c, fs, |r.got|);
    assert |arrived| == |EncodeFrames(c, r.got)| + |r.buffer|;
  }

  lemma {:induction false} PartIsPrefix(c: Channel, fs: seq<Frame>, k: nat)
    requires fs != [] && k <= |EncodeFrame(c, fs[0])|
    ensures IsPrefix(EncodeFrame(c, fs[0])[..k], EncodeFrames(c, fs))
  {
  }

  lemma {:induction false} AllButOneByte(c: Channel, fs: seq<Frame>, i: nat, r: Receiver)
    requires ValidFrames(fs) && i < |fs|
    requires r == Receiver(fs[..i], EncodeFrame(c, fs[i])[..|EncodeFrame(c, fs[i])| - 1])
    ensures InStep(c, fs, r, EncodeFrames(c, fs[..i]) + r.buffer) && Next(c, r.buffer) == Success(Wait)
  {
    PartialWaits(c, fs[i], |r.buffer|);
    PartIsPrefix(c, fs[i..], |r.buffer|);
  }

  /** The crest is reached. */
  lemma {:induction false} CrestIsReached(c: Channel, fs: seq<Frame>, i: nat, chunk: nat)
    returns (r: Receiver, arrived: Bytes, n: nat)
    requires ValidFrames(fs) && i < |fs| && chunk > 0
    ensures n <= chunk && WaitsFor(c, fs, r, arrived, n) && |r.buffer| + n == Crest(c, fs, i, chunk)
  {
    r := Receiver(fs[..i], EncodeFrame(c, fs[i])[..|EncodeFrame(c, fs[i])| - 1]);
    arrived := EncodeFrames(c, fs[..i]) + r.buffer;
    StreamLength(c, fs, i);
    n := Crest(c, fs, i, chunk) - |r.buffer|;
    AllButOneByte(c, fs, i, r);
  }

  /** A receiver that asks until it waits before it reads at most `chunk` bytes is never refused exactly when
      no crest of the stream exceeds one largest frame. */
  lemma {:induction false} RefusedExactly(c: Channel, fs: seq<Frame>, maxPayload: nat, chunk: nat)
    requires ValidFrames(fs) && chunk > 0
    ensures NeverRefused(c, fs, maxPayload, chunk) <==>
              forall i | 0 <= i < |fs| :: Crest(c, fs, i, chunk) <= WireSize(maxPayload, true)
  {
    if NeverRefused(c, fs, maxPayload, chunk) {
      forall i | 0 <= i < |fs| ensures Crest(c, fs, i, chunk) <= WireSize(maxPayload, true) {
        var r, arrived, n := CrestIsReached(c, fs, i, chunk);
        assert Admits(maxPayload, |r.buffer|, n);
      }
    }
    if forall i | 0 <= i < |fs| :: Crest(c, fs, i, chunk) <= WireSize(maxPayload, true) {
      forall r, arrived, n: nat | n <= chunk && WaitsFor(c, fs, r, arrived, n)
        ensures Admits(maxPayload, |r.buffer|, n) {
        if |r.buffer| + n > 0 { WaitingIsBelow(c, fs, r, arrived, chunk, n); }
      }
    }
  }

  lemma {:induction false} OneFrame(c: Channel, f: Frame)
    ensures EncodeFrames(c, [f]) == EncodeFrame(c, f)
  {
    assert [f][1..] == [];
  }

  /** Two signed frames of the largest size: reading two bytes at a time is refused between them. */
  lemma {:induction false} LargestFramesRefused(c: Channel, f: Frame, maxPayload: nat)
    requires c.Signed() && |f.payload| == maxPayload && ValidFrame(f)
    ensures !NeverRefused(c, [f, f], maxPayload, 2)
  {
    var fs := [f, f];
    assert fs[0..] == fs;
    EncodeSplit(c, [f], [f]);
    OneFrame(c, f);
    assert fs == [f] + [f];
    assert Crest(c, fs, 0, 2) == WireSize(maxPayload, true) + 1;
    RefusedExactly(c, fs, maxPayload, 2);
  }

  // ---- reading until nothing more is there ----

  /** What the socket gives one call: some bytes, none for now, or a failure; no bytes mean the peer closed. */
  datatype Received = Data(bytes: Bytes) | NothingNow | Failing(outcome: Outcome)

  const READ_CHUNK := 16384

  datatype Filling = Filling(buffer: Bytes, outcome: Outcome)

  /** `Connection::fill`: pushes what it reads until a read is short, and asks for no frame in between. */
  function Filled(maxPayload: nat, buffer: Bytes, calls: seq<Received>): Filling
    decreases |calls|
  {
    if calls == [] then Filling(buffer, Ok)
    else
      match calls[0]
      case NothingNow => Filling(buffer, Ok)
      case Failing(o) => Filling(buffer, o)
      case Data(d) =>
        if d == [] then Filling(buffer, Unreachable)
        else if !Admits(maxPayload, |buffer|, |d|) then Filling(buffer, Invalid)
        else if |d| < READ_CHUNK then Filling(buffer + d, Ok)
        else Filled(maxPayload, buffer + d, calls[1..])
  }

  function Burst(calls: seq<Received>): Bytes
    decreases |calls|
  {
    if calls == [] then [] else (if calls[0].Data? then calls[0].bytes else []) + Burst(calls[1..])
  }

  /** A backlog as the socket hands it out: full reads, and a last one that may be short. */
  predicate IsBacklog(calls: seq<Received>) {
    forall i | 0 <= i < |calls| ::
      calls[i].Data? && 0 < |calls[i].bytes| && (i < |calls| - 1 ==> |calls[i].bytes| >= READ_CHUNK)
  }

  /** So a backlog is refused exactly when, with what is buffered, it is more than one largest frame, however
      small its frames are. */
  lemma {:induction false} BacklogRefusedExactly(maxPayload: nat, buffer: Bytes, calls: seq<Received>)
    requires IsBacklog(calls) && |buffer| <= WireSize(maxPayload, true)
    ensures if |buffer + Burst(calls)| <= WireSize(maxPayload, true)
            then Filled(maxPayload, buffer, calls) == Filling(buffer + Burst(calls), Ok)
            else Filled(maxPayload, buffer, calls).outcome == Invalid
    decreases |calls|
  {
    if calls != [] {
      var d := calls[0].bytes;
      assert buffer + Burst(calls) == buffer + d + Burst(calls[1..]);
      assert forall i | 0 <= i < |calls[1..]| :: calls[1..][i] == calls[i + 1];
      if |d| < READ_CHUNK { assert calls[1..] == []; }
      if Admits(maxPayload, |buffer|, |d|) { BacklogRefusedExactly(maxPayload, buffer + d, calls[1..]); }
    } else {
      assert buffer + Burst(calls) == buffer;
    }
  }

  // ---- the parser object ----

  class FrameParser {
    const maxPayload: nat
    var buffer: Bytes

    constructor (maxPayload: nat)
      ensures buffer == [] && this.maxPayload == if maxPayload > MAX_FRAME_PAYLOAD then MAX_FRAME_PAYLOAD
              else maxPayload
    {
      this.maxPayload := if maxPayload > MAX_FRAME_PAYLOAD then MAX_FRAME_PAYLOAD else maxPayload;
      buffer := [];
    }

    /** `FrameParser::push`: refuses more than one largest frame can need. */
    method Push(data: Bytes) returns (outcome: Outcome)
      modifies this`buffer
      ensures outcome == if Admits(maxPayload, |old(buffer)|, |data|) then Ok else Invalid
      ensures buffer == if outcome == Ok then old(buffer) + data else old(buffer)
    {
      if !Admits(maxPayload, |buffer|, |data|) { return Invalid; }
      buffer := buffer + data;
      return Ok;
    }

    /** The loop of `Connection::fill` over what the socket gives call by call. */
    method Fill(calls: seq<Received>) returns (outcome: Outcome)
      modifies this`buffer
      ensures Filling(buffer, outcome) == Filled(maxPayload, old(buffer), calls)
    {
      for i := 0 to |calls|
        invariant Filled(maxPayload, old(buffer), calls) == Filled(maxPayload, buffer, calls[i..])
      {
        assert calls[i..][0] == calls[i] && calls[i..][1..] == calls[i + 1..];
        match calls[i] {
          case NothingNow => return Ok;
          case Failing(o) => return o;
          case Data(d) =>
            if d == [] { return Unreachable; }
            outcome := Push(d);
            if outcome != Ok { return; }
            if |d| < READ_CHUNK { return Ok; }
        }
      }
      return Ok;
    }

    /** `FrameParser::next`: one request of the receiver. */
    method Take(c: Channel) returns (r: Result<Option<Frame>>)
      modifies this`buffer
      ensures r.Failure? <==> Next(c, old(buffer)).Failure?
      ensures forall got :: var s := React(c, Receiver(got, old(buffer)), Asks);
                buffer == s.buffer && (r.Success? ==> s.got == if r.value.Some? then got + [r.value.value] else got)
    {
      match Next(c, buffer) {
        case Failure(o) => return Failure(o);
        case Success(Wait) => return Success(None);
        case Success(Got(f, n)) =>
          buffer := buffer[n..];
          return Success(Some(f));
      }
    }
  }

  // ---- the send queue ----

  /** What the socket does with one call: takes some bytes, would block, or fails. */
  datatype Send = Took(n: nat) | WouldBlock | Broke(outcome: Outcome)

  function Concat(queue: seq<Bytes>): Bytes
    decreases |queue|
  {
    if queue == [] then [] else queue[0] + Concat(queue[1..])
  }

  lemma {:induction false} ConcatLast(queue: seq<Bytes>, b: Bytes)
    ensures Concat(queue + [b]) == Concat(queue) + b
    decreases |queue|
  {
    if queue == [] {
      assert queue + [b] == [b] && [b][1..] == [];
    } else {
      assert (queue + [b])[1..] == queue[1..] + [b];
      ConcatLast(queue[1..], b);
    }
  }

  lemma {:induction false} FramesLast(c: Channel, fs: seq<Frame>, f: Frame)
    ensures EncodeFrames(c, fs + [f]) == EncodeFrames(c, fs) + EncodeFrame(c, f)
  {
    EncodeSplit(c, fs, [f]);
    assert [f][1..] == [];
  }

  predicate QueueShape(queue: seq<Bytes>, offset: nat) {
    && (if queue == [] then offset == 0 else offset < |queue[0]|)
    && (forall i | 0 <= i < |queue| :: queue[i] != []) && offset <= |Concat(queue)|
  }

  ghost predicate QueueSound(c: Channel, unsent: Bytes, queuedBytes: nat, wire: Bytes, accepted: seq<Frame>) {
    queuedBytes == |unsent| && ValidFrames(accepted) && wire + unsent == EncodeFrames(c, accepted)
  }

  lemma {:induction false} QueueGrows(
      c: Channel, queue: seq<Bytes>, offset: nat, queuedBytes: nat, wire: Bytes, accepted: seq<Frame>, f: Frame)
    requires QueueShape(queue, offset) && QueueSound(c, Concat(queue)[offset..], queuedBytes, wire, accepted)
    requires ValidFrame(f)
    ensures var one := EncodeFrame(c, f);
            && QueueShape(queue + [one], offset)
            && QueueSound(c, Concat(queue + [one])[offset..], queuedBytes + |one|, wire, accepted + [f])
  {
    var one := EncodeFrame(c, f);
    ConcatLast(queue, one);
    FramesLast(c, accepted, f);
    QueuedAfter(wire, Concat(queue), offset, one);
    if queue != [] { assert (queue + [one])[0] == queue[0]; }
  }

  function Rest(queue: seq<Bytes>, offset: nat): (seq<Bytes>, nat)
    requires queue != []
  {
    if offset == |queue[0]| then (queue[1..], 0) else (queue, offset)
  }

  lemma {:induction false} QueueShrinks(
      c: Channel, queue: seq<Bytes>, offset: nat, queuedBytes: nat, wire: Bytes, accepted: seq<Frame>, n: nat)
    requires QueueShape(queue, offset) && QueueSound(c, Concat(queue)[offset..], queuedBytes, wire, accepted)
    requires queue != [] && 0 < n <= |queue[0]| - offset
    ensures var rest := Rest(queue, offset + n);
            && |Concat(queue)[offset..]| >= n && QueueShape(rest.0, rest.1)
            && IsPrefix(wire, wire + Concat(queue)[offset..][..n])
            && |wire + Concat(queue)[offset..][..n]| == |wire| + n
            && QueueSound(c, Concat(rest.0)[rest.1..], queuedBytes - n, wire + Concat(queue)[offset..][..n], accepted)
  {
    FrontOfQueue(queue, offset, n);
    Moved(wire, Concat(queue)[offset..], n);
    var rest := Rest(queue, offset + n);
    assert Concat(rest.0)[rest.1..] == Concat(queue)[offset..][n..];
  }

  /** The bytes one call takes: never more than the front frame has left. */
  function Written(queue: seq<Bytes>, offset: nat, n: nat): nat
    requires queue != [] && offset <= |queue[0]|
  {
    if n < |queue[0]| - offset then n else |queue[0]| - offset
  }

  /** What a whole `flush` hands to the socket, and how it ends. */
  datatype Handed = Handed(bytes: nat, outcome: Outcome)

  function Taken(queue: seq<Bytes>, offset: nat, sends: seq<Send>): Handed
    requires QueueShape(queue, offset)
    decreases |sends|
  {
    if queue == [] || sends == [] then Handed(0, Ok)
    else
      match sends[0]
      case WouldBlock => Handed(0, Ok)
      case Broke(o) => Handed(0, o)
      case Took(n) =>
        if n == 0 then Handed(0, Ok)
        else
          var written := Written(queue, offset, n);
          var rest := Rest(queue, offset + written);
          RestKeepsShape(queue, offset, written);
          var more := Taken(rest.0, rest.1, sends[1..]);
          Handed(written + more.bytes, more.outcome)
  }

  lemma {:induction false} RestKeepsShape(queue: seq<Bytes>, offset: nat, n: nat)
    requires QueueShape(queue, offset) && queue != [] && 0 < n <= |queue[0]| - offset
    ensures QueueShape(Rest(queue, offset + n).0, Rest(queue, offset + n).1)
  {
    FrontOfQueue(queue, offset, n);
  }

  /** A socket that takes whatever it is offered, call after call, empties the queue. */
  lemma {:induction false} WillingSocketTakesAll(queue: seq<Bytes>, offset: nat, sends: seq<Send>)
    requires QueueShape(queue, offset) && |sends| >= |queue|
    requires forall i | 0 <= i < |sends| :: sends[i].Took? && sends[i].n >= |Concat(queue)|
    ensures Taken(queue, offset, sends) == Handed(|Concat(queue)| - offset, Ok)
    decreases |queue|
  {
    if queue != [] {
      var left := |queue[0]| - offset;
      RestKeepsShape(queue, offset, left);
      assert Written(queue, offset, sends[0].n) == left;
      assert forall i | 0 <= i < |sends[1..]| :: sends[1..][i] == sends[i + 1];
      WillingSocketTakesAll(queue[1..], 0, sends[1..]);
    }
  }

  class Connection {
    const channel: Channel
    const maxPayload: nat
    const maxPendingFrames: nat
    const maxQueuedBytes: nat
    var closed: bool
    var queue: seq<Bytes>
    var queueOffset: nat
    var queuedBytes: nat
    ghost var wire: Bytes             // everything handed to the socket
    ghost var accepted: seq<Frame>    // every frame taken for sending

    /** The bytes handed out and those still queued are the accepted frames, one after the other. */
    ghost predicate Valid()
      reads this
    {
      QueueShape(queue, queueOffset) && QueueSound(channel, Concat(queue)[queueOffset..], queuedBytes, wire, accepted)
    }

    constructor (channel: Channel, maxPayload: nat, maxPendingFrames: nat, maxQueuedBytes: nat)
      ensures Valid() && !closed && wire == [] && accepted == [] && this.channel == channel
      ensures this.maxPayload == maxPayload && this.maxPendingFrames == maxPendingFrames
      ensures this.maxQueuedBytes == maxQueuedBytes
    {
      this.channel, this.maxPayload, this.maxPendingFrames, this.maxQueuedBytes :=
        channel, maxPayload, maxPendingFrames, maxQueuedBytes;
      closed, queue, queueOffset, queuedBytes := false, [], 0, 0;
      wire, accepted := [], [];
    }

    /** The checks of `queue_frame`, in order. */
    function QueueOutcome(length: nat): Outcome
      reads this
    {
      if closed then Cancelled
      else if length > maxPayload then CapacityExceeded
      else if |queue| >= maxPendingFrames then Busy
      else if length > MAX_FRAME_PAYLOAD then Invalid
      else if queuedBytes + WireSize(length, channel.Signed()) > maxQueuedBytes then Busy
      else Ok
    }

    /** `queue_frame` under the channel's signing. */
    method QueueFrame(kind: nat, payload: Bytes) returns (outcome: Outcome)
      requires Valid() && 1 <= kind <= MAX_MESSAGE_TYPE
      modifies this
      ensures Valid() && wire == old(wire) && closed == old(closed)
      ensures outcome == old(QueueOutcome(|payload|))
      ensures accepted == if outcome == Ok then old(accepted) + [Frame(kind, payload)] else old(accepted)
      ensures outcome != Ok ==> queue == old(queue) && queueOffset == old(queueOffset)
    {
      if closed { return Cancelled; }
      if |payload| > maxPayload { return CapacityExceeded; }
      if |queue| >= maxPendingFrames { return Busy; }
      if |payload| > MAX_FRAME_PAYLOAD { return Invalid; }
      var frame := Frame(kind, payload);
      var encoded := EncodeFrame(channel, frame);
      if queuedBytes + |encoded| > maxQueuedBytes { return Busy; }
      QueueGrows(channel, queue, queueOffset, queuedBytes, wire, accepted, frame);
      queuedBytes := queuedBytes + |encoded|;
      queue := queue + [encoded];
      accepted := accepted + [frame];
      return Ok;
    }

    /** `flush`: hands the socket what is queued, call by call, until the queue is empty or the socket
        stops taking.  `sends` says what the socket does with each call. */
    method Flush(sends: seq<Send>) returns (outcome: Outcome)
      requires Valid()
      modifies this
      ensures Valid() && accepted == old(accepted) && closed == old(closed)
      ensures var taken := old(Taken(queue, queueOffset, sends));
              && |wire| == |old(wire)| + taken.bytes && outcome == taken.outcome
              && IsPrefix(old(wire), wire) && queuedBytes == old(queuedBytes) - taken.bytes
    {
      ghost var all := Taken(queue, queueOffset, sends);
      var i := 0;
      while queue != [] && i < |sends|
        invariant Valid() && accepted == old(accepted) && closed == old(closed) && IsPrefix(old(wire), wire)
        invariant i <= |sends|
        invariant var rest := Taken(queue, queueOffset, sends[i..]);
                  && all == Handed(|wire| - |old(wire)| + rest.bytes, rest.outcome)
                  && queuedBytes == old(queuedBytes) - (|wire| - |old(wire)|)
        decreases |sends| - i
      {
        assert sends[i..][0] == sends[i] && sends[i..][1..] == sends[i + 1..];
        match sends[i] {
          case WouldBlock => return Ok;
          case Broke(o) => return o;
          case Took(n) =>
            if n == 0 { return Ok; }
            var written := Written(queue, queueOffset, n);
            Advance(written);
        }
        i := i + 1;
      }
      return Ok;
    }

    /** The socket took some bytes of the front frame. */
    method Advance(written: nat)
      requires Valid() && queue != [] && 0 < written <= |queue[0]| - queueOffset
      modifies this
      ensures Valid() && accepted == old(accepted) && closed == old(closed) && IsPrefix(old(wire), wire)
      ensures |wire| == |old(wire)| + written && queuedBytes == old(queuedBytes) - written
      ensures (queue, queueOffset) == old(Rest(queue, queueOffset + written))
    {
      QueueShrinks(channel, queue, queueOffset, queuedBytes, wire, accepted, written);
      ghost var rest := Rest(queue, queueOffset + written);
      wire := wire + Concat(queue)[queueOffset..][..written];
      queuedBytes := queuedBytes - written;
      if queueOffset + written == |queue[0]| {
        queue, queueOffset := queue[1..], 0;
      } else {
        queueOffset := queueOffset + written;
      }
      assert (queue, queueOffset) == rest;
    }
  }

  /** What is left after some bytes of the front have gone. */
  lemma {:induction false} FrontOfQueue(queue: seq<Bytes>, offset: nat, written: nat)
    requires queue != [] && offset + written <= |queue[0]|
    ensures |queue[0]| <= |Concat(queue)| && Concat(queue)[offset..][written..] == Concat(queue)[offset + written..]
    ensures offset + written == |queue[0]| ==> Concat(queue)[offset..][written..] == Concat(queue[1..])[0..]
  {
  }

  lemma {:induction false} Moved(wire: Bytes, unsent: Bytes, n: nat)
    requires n <= |unsent|
    ensures wire + unsent[..n] + unsent[n..] == wire + unsent && IsPrefix(wire, wire + unsent[..n])
  {
  }

  lemma {:induction false} QueuedAfter(wire: Bytes, queued: Bytes, offset: nat, more: Bytes)
    requires offset <= |queued|
    ensures (queued + more)[offset..] == queued[offset..] + more
    ensures wire + (queued + more)[offset..] == wire + queued[offset..] + more
  {
  }

  /** From queue to handler: whatever a connection has handed to the socket, delivered in any pieces, is
      turned back into the first of the frames it accepted. */
  lemma {:induction false} EndToEnd(c: Channel, accepted: seq<Frame>, wire: Bytes, unsent: Bytes, events: seq<Event>)
    requires ValidFrames(accepted) && wire + unsent == EncodeFrames(c, accepted) && Arrived(events) == wire
    ensures var r := Receive(c, Receiver([], []), events);
            && |r.got| <= |accepted| && r.got == accepted[..|r.got|] && Next(c, r.buffer).Success?
            && (unsent == [] && Next(c, r.buffer) == Success(Wait) ==> r == Receiver(accepted, []))
  {
    assert IsPrefix(wire, EncodeFrames(c, accepted));
    StreamDelivered(c, accepted, events);
    if unsent == [] { assert wire == EncodeFrames(c, accepted); }
  }
}
