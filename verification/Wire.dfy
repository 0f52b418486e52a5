/** Primitive fields of the canonical encoding (src/core/bytes.cpp, src/core/utf8.cpp, include/icf/core/ids.hpp).
    A writer is a function of the value and of the bytes that follow it; its postcondition is the round
    trip: the matching reader returns the value and exactly those bytes. */
module Wire {
  import opened Model

  type Parsed<+T> = Result<(T, Bytes)>

  // ---- big-endian integers ----

  function Pow256(w: nat): (p: nat)
    ensures p > 0
  {
    if w == 0 then 1 else 256 * Pow256(w - 1)
  }

  /** The `w` low bytes of `x`, most significant first. */
  function BigEndian(x: nat, w: nat): (b: Bytes)
    ensures |b| == w
  {
    if w == 0 then [] else BigEndian(x / 256, w - 1) + [x % 256]
  }

  function FromBigEndian(b: Bytes): nat {
    if b == [] then 0 else 256 * FromBigEndian(b[..|b| - 1]) + b[|b| - 1]
  }

  lemma {:induction false} BigEndianInverse(x: nat, w: nat)
    requires x < Pow256(w)
    ensures FromBigEndian(BigEndian(x, w)) == x
    decreases w
  {
    if w > 0 {
      BigEndianInverse(x / 256, w - 1);
      var b := BigEndian(x, w);
      assert b[..|b| - 1] == BigEndian(x / 256, w - 1);
    }
  }

  const U8 := 0x100
  const U16 := 0x1_0000
  const U32 := 0x1_0000_0000
  const U64 := 0x1_0000_0000_0000_0000
  const I63 := 0x8000_0000_0000_0000
  const U128 := U64 * U64
  const U256 := U128 * U128

  lemma {:induction false} Widths()
    ensures Pow256(1) == U8 && Pow256(2) == U16 && Pow256(4) == U32 && Pow256(8) == U64
    ensures Pow256(16) == U128 && Pow256(32) == U256
  {
    PowSum(1, 1);
    PowSum(2, 2);
    PowSum(4, 4);
    PowSum(8, 8);
    PowSum(16, 16);
  }

  lemma {:induction false} PowSum(a: nat, b: nat)
    ensures Pow256(a + b) == Pow256(a) * Pow256(b)
    decreases a
  {
    if a > 0 {
      PowSum(a - 1, b);
      assert Pow256(a + b) == 256 * Pow256(a - 1 + b);
    }
  }

  function TakeInt(b: Bytes, w: nat): Parsed<nat> {
    if |b| < w then Failure(Incomplete) else Success((FromBigEndian(b[..w]), b[w..]))
  }

  function PutInt(x: nat, w: nat, rest: Bytes): (b: Bytes)
    requires x < Pow256(w)
    ensures TakeInt(b, w) == Success((x, rest))
  {
    BigEndianInverse(x, w);
    var b := BigEndian(x, w) + rest;
    assert b[..w] == BigEndian(x, w) && b[w..] == rest;
    b
  }

  // ---- the fields of the format ----

  function TakeU8(b: Bytes): Parsed<nat> { TakeInt(b, 1) }
  function PutU8(x: nat, rest: Bytes): (b: Bytes)
    requires x < U8
    ensures TakeU8(b) == Success((x, rest))
  {
    Widths(); PutInt(x, 1, rest)
  }

  function TakeU16(b: Bytes): Parsed<nat> { TakeInt(b, 2) }
  function PutU16(x: nat, rest: Bytes): (b: Bytes)
    requires x < U16
    ensures TakeU16(b) == Success((x, rest))
  {
    Widths(); PutInt(x, 2, rest)
  }

  function TakeU32(b: Bytes): Parsed<nat> { TakeInt(b, 4) }
  function PutU32(x: nat, rest: Bytes): (b: Bytes)
    requires x < U32
    ensures TakeU32(b) == Success((x, rest))
  {
    Widths(); PutInt(x, 4, rest)
  }

  function TakeU64(b: Bytes): Parsed<nat> { TakeInt(b, 8) }
  function PutU64(x: nat, rest: Bytes): (b: Bytes)
    requires x < U64
    ensures TakeU64(b) == Success((x, rest))
  {
    Widths(); PutInt(x, 8, rest)
  }

  /** Two's complement. */
  function TakeI64(b: Bytes): Parsed<int> {
    var (x, b) :- TakeInt(b, 8);
    Success((if x < I63 then x else x - U64, b))
  }
  function PutI64(x: int, rest: Bytes): (b: Bytes)
    requires -I63 <= x < I63
    ensures TakeI64(b) == Success((x, rest))
  {
    Widths(); PutInt(if x < 0 then x + U64 else x, 8, rest)
  }

  function TakeBool(b: Bytes): Parsed<bool> {
    var (x, b) :- TakeU8(b);
    if x > 1 then Failure(Invalid) else Success((x == 1, b))
  }
  function PutBool(x: bool, rest: Bytes): (b: Bytes)
    ensures TakeBool(b) == Success((x, rest))
  {
    PutU8(if x then 1 else 0, rest)
  }

  /** 16 raw bytes. */
  function TakeUuid(b: Bytes): Parsed<Uuid> { TakeInt(b, 16) }
  function PutUuid(x: Uuid, rest: Bytes): (b: Bytes)
    requires x < U128
    ensures TakeUuid(b) == Success((x, rest))
  {
    Widths(); PutInt(x, 16, rest)
  }

  /** 32 raw bytes. */
  function TakeDigest(b: Bytes): Parsed<Digest> { TakeInt(b, 32) }
  function PutDigest(x: Digest, rest: Bytes): (b: Bytes)
    requires x < U256
    ensures TakeDigest(b) == Success((x, rest))
  {
    Widths(); PutInt(x, 32, rest)
  }

  /** A counter the decoder refuses above `max`. */
  function TakeCounter(b: Bytes, max: nat): Parsed<nat> {
    var (x, b) :- TakeU64(b);
    if x > max then Failure(Overflow) else Success((x, b))
  }
  function PutCounter(x: nat, max: nat, rest: Bytes): (b: Bytes)
    requires x <= max < U64
    ensures TakeCounter(b, max) == Success((x, rest))
  {
    PutU64(x, rest)
  }

  // ---- enumerations: a value is its position in the declaration ----

  function TakeEnum<T>(b: Bytes, table: seq<T>): Parsed<T> {
    var (x, b) :- TakeU8(b);
    if x < |table| then Success((table[x], b)) else Failure(Invalid)
  }
  function PutEnum<T>(i: nat, table: seq<T>, rest: Bytes): (b: Bytes)
    requires i < |table| <= U8
    ensures TakeEnum(b, table) == Success((table[i], rest))
  {
    PutU8(i, rest)
  }

  function TakeEnum16<T>(b: Bytes, table: seq<T>): Parsed<T> {
    var (x, b) :- TakeU16(b);
    if x < |table| then Success((table[x], b)) else Failure(Invalid)
  }
  function PutEnum16<T>(i: nat, table: seq<T>, rest: Bytes): (b: Bytes)
    requires i < |table| <= U16
    ensures TakeEnum16(b, table) == Success((table[i], rest))
  {
    PutU16(i, rest)
  }

  // ---- text ----

  predicate Continuation(c: Byte) { 0x80 <= c < 0xC0 }

  /** The code point of a lead byte's payload bits followed by `n` continuation bytes. */
  function CodePoint(lead: int, tail: Bytes): int
    decreases |tail|
  {
    if tail == [] then lead else CodePoint(lead * 64 + (tail[0] as int - 0x80), tail[1..])
  }

  predicate Continues(t: Bytes, n: nat) {
    |t| > n && forall i | 1 <= i <= n :: Continuation(t[i])
  }

  /** `is_valid_utf8`: no overlong forms, no surrogates, nothing past U+10FFFF. */
  predicate ValidUtf8(t: Bytes)
    decreases |t|
  {
    if t == [] then true
    else if t[0] < 0x80 then ValidUtf8(t[1..])
    else if 0xC0 <= t[0] < 0xE0 then
      Continues(t, 1) && CodePoint(t[0] as int - 0xC0, t[1..2]) >= 0x80 && ValidUtf8(t[2..])
    else if 0xE0 <= t[0] < 0xF0 then
      && Continues(t, 2) && CodePoint(t[0] as int - 0xE0, t[1..3]) >= 0x800
      && !(0xD800 <= CodePoint(t[0] as int - 0xE0, t[1..3]) <= 0xDFFF)
      && ValidUtf8(t[3..])
    else if 0xF0 <= t[0] < 0xF8 then
      Continues(t, 3) && 0x10000 <= CodePoint(t[0] as int - 0xF0, t[1..4]) <= 0x10FFFF && ValidUtf8(t[4..])
    else false
  }

  predicate IsText(t: Bytes, max: nat) {
    |t| <= max && ValidUtf8(t)
  }

  function TakeBlob(b: Bytes, max: nat): Parsed<Bytes> {
    var (n, b) :- TakeU32(b);
    if n > max then Failure(Invalid)
    else if |b| < n then Failure(Incomplete)
    else if !ValidUtf8(b[..n]) then Failure(Invalid)
    else Success((b[..n], b[n..]))
  }
  function PutBlob(t: Bytes, max: nat, rest: Bytes): (b: Bytes)
    requires IsText(t, max) && max < U32
    ensures TakeBlob(b, max) == Success((t, rest))
  {
    assert (t + rest)[..|t|] == t && (t + rest)[|t|..] == rest;
    PutU32(|t|, t + rest)
  }

  /** Free text of at most 512 bytes. */
  function TakeText(b: Bytes): Parsed<Bytes> { TakeBlob(b, MAX_STRING_FIELD) }
  function PutText(t: Bytes, rest: Bytes): (b: Bytes)
    requires IsText(t, MAX_STRING_FIELD)
    ensures TakeText(b) == Success((t, rest))
  {
    PutBlob(t, MAX_STRING_FIELD, rest)
  }

  // ---- identities: the character set of `Name::parse` ----

  predicate Alphanumeric(c: Byte) {
    0x30 <= c <= 0x39 || 0x41 <= c <= 0x5A || 0x61 <= c <= 0x7A
  }

  const NAME_EXTRA: set<Byte> := {0x2E, 0x5F, 0x2D}                    // . _ -
  const SCOPE_EXTRA: set<Byte> := {0x2E, 0x5F, 0x2D, 0x2F, 0x3A, 0x40}  // . _ - / : @

  predicate Permitted(t: Bytes, extra: set<Byte>) {
    forall i | 0 <= i < |t| :: Alphanumeric(t[i]) || t[i] in extra
  }

  predicate IsName(t: Bytes) {
    t != [] && |t| <= MAX_NAME_LENGTH && Alphanumeric(t[0]) && Permitted(t, NAME_EXTRA)
  }

  predicate IsScope(t: Bytes) {
    t != [] && |t| <= MAX_SCOPE_LENGTH && Permitted(t, SCOPE_EXTRA)
  }

  lemma {:induction false} PermittedIsUtf8(t: Bytes)
    requires forall i | 0 <= i < |t| :: t[i] < 0x80
    ensures ValidUtf8(t)
    decreases |t|
  {
    if t != [] { PermittedIsUtf8(t[1..]); }
  }

  function TakeName(b: Bytes): Parsed<Name> {
    var (t, b) :- TakeBlob(b, MAX_NAME_LENGTH);
    if IsName(t) then Success((t, b)) else Failure(Invalid)
  }
  function PutName(t: Name, rest: Bytes): (b: Bytes)
    requires IsName(t)
    ensures TakeName(b) == Success((t, rest))
  {
    PermittedIsUtf8(t);
    PutBlob(t, MAX_NAME_LENGTH, rest)
  }

  /** A name or the empty wildcard. */
  function TakeOptionalName(b: Bytes): Parsed<Name> {
    var (t, b) :- TakeBlob(b, MAX_NAME_LENGTH);
    if t == [] || IsName(t) then Success((t, b)) else Failure(Invalid)
  }
  function PutOptionalName(t: Name, rest: Bytes): (b: Bytes)
    requires t == [] || IsName(t)
    ensures TakeOptionalName(b) == Success((t, rest))
  {
    PermittedIsUtf8(t);
    PutBlob(t, MAX_NAME_LENGTH, rest)
  }

  function TakeScope(b: Bytes): Parsed<Name> {
    var (t, b) :- TakeBlob(b, MAX_SCOPE_LENGTH);
    if IsScope(t) then Success((t, b)) else Failure(Invalid)
  }
  function PutScope(t: Name, rest: Bytes): (b: Bytes)
    requires IsScope(t)
    ensures TakeScope(b) == Success((t, rest))
  {
    PermittedIsUtf8(t);
    PutBlob(t, MAX_SCOPE_LENGTH, rest)
  }

  // ---- counted collections ----

  /** The writer's output is read back, whatever follows it. */
  ghost predicate RoundTrip<T>(x: T, put: (T, Bytes) --> Bytes, take: Bytes -> Parsed<T>) {
    forall rest: Bytes :: put.requires(x, rest) && take(put(x, rest)) == Success((x, rest))
  }

  ghost predicate RoundTrips<T>(xs: seq<T>, put: (T, Bytes) --> Bytes, take: Bytes -> Parsed<T>) {
    forall i | 0 <= i < |xs| :: RoundTrip(xs[i], put, take)
  }

  /** Records are stored one by one as they are read. */
  function TakeInto<S, T>(b: Bytes, n: nat, take: Bytes -> Parsed<T>, store: (S, T) -> Result<S>, s: S): Parsed<S>
    decreases n
  {
    if n == 0 then Success((s, b))
    else
      var (x, b) :- take(b);
      var s :- store(s, x);
      TakeInto(b, n - 1, take, store, s)
  }

  function Fold<S, T>(xs: seq<T>, store: (S, T) -> Result<S>, s: S): Result<S>
    decreases |xs|
  {
    if xs == [] then Success(s)
    else
      var s :- store(s, xs[0]);
      Fold(xs[1..], store, s)
  }

  ghost function PutMany<T>(xs: seq<T>, put: (T, Bytes) --> Bytes, take: Bytes -> Parsed<T>, rest: Bytes): Bytes
    requires RoundTrips(xs, put, take)
    decreases |xs|
  {
    if xs == [] then rest
    else
      assert RoundTrip(xs[0], put, take);
      put(xs[0], PutMany(xs[1..], put, take, rest))
  }

  lemma {:induction false} ManyRoundTrip<S, T>(
      xs: seq<T>, put: (T, Bytes) --> Bytes, take: Bytes -> Parsed<T>, store: (S, T) -> Result<S>, s: S, rest: Bytes)
    requires RoundTrips(xs, put, take) && Fold(xs, store, s).Success?
    ensures TakeInto(PutMany(xs, put, take, rest), |xs|, take, store, s) == Success((Fold(xs, store, s).value, rest))
    decreases |xs|
  {
    if xs != [] {
      assert RoundTrip(xs[0], put, take);
      ManyRoundTrip(xs[1..], put, take, store, store(s, xs[0]).value, rest);
    }
  }

  /** A count no greater than `max`, then that many records. */
  function TakeGroup<S, T>(b: Bytes, max: nat, take: Bytes -> Parsed<T>, store: (S, T) -> Result<S>, s: S): Parsed<S> {
    var (n, b) :- TakeU32(b);
    if n > max then Failure(Invalid) else TakeInto(b, n, take, store, s)
  }

  ghost function PutGroup<T>(xs: seq<T>, put: (T, Bytes) --> Bytes, take: Bytes -> Parsed<T>, rest: Bytes): Bytes
    requires RoundTrips(xs, put, take) && |xs| < U32
  {
    PutU32(|xs|, PutMany(xs, put, take, rest))
  }

  lemma {:induction false} GroupRoundTrip<S, T>(
      xs: seq<T>, max: nat, put: (T, Bytes) --> Bytes, take: Bytes -> Parsed<T>, store: (S, T) -> Result<S>, s: S,
      rest: Bytes)
    requires RoundTrips(xs, put, take) && |xs| <= max < U32 && Fold(xs, store, s).Success?
    ensures TakeGroup(PutGroup(xs, put, take, rest), max, take, store, s) == Success((Fold(xs, store, s).value, rest))
  {
    ManyRoundTrip(xs, put, take, store, s, rest);
  }

  // ---- maps, written as their records in key order ----

  /** Every key once. */
  ghost predicate Enumerates<K>(keys: seq<K>, s: set<K>) {
    && (forall i | 0 <= i < |keys| :: keys[i] in s) && (forall k <- s :: k in keys)
    && (forall i, j | 0 <= i < j < |keys| :: keys[i] != keys[j])
  }

  ghost function Records<K, V>(m: map<K, V>, keys: seq<K>): (xs: seq<V>)
    requires forall i | 0 <= i < |keys| :: keys[i] in m
    ensures |xs| == |keys| && forall i | 0 <= i < |keys| :: xs[i] == m[keys[i]]
  {
    seq(|keys|, i requires 0 <= i < |keys| => m[keys[i]])
  }

  /** Storing a record is inserting it under its own key, while there is room. */
  ghost predicate Inserts<S, K(!new), V(!new)>(
      store: (S, V) -> Result<S>, embed: map<K, V> -> S, key: V -> K, ok: V -> bool, bound: nat)
  {
    forall m, v :: ok(v) && key(v) !in m && |m| < bound ==> store(embed(m), v) == Success(embed(m[key(v) := v]))
  }

  /** The map with some of the records of `m` put in. */
  ghost function Added<K, V>(m: map<K, V>, keys: seq<K>, done: map<K, V>): map<K, V>
    requires forall i | 0 <= i < |keys| :: keys[i] in m
    decreases |keys|
  {
    if keys == [] then done else Added(m, keys[1..], done[keys[0] := m[keys[0]]])
  }

  lemma {:induction false} AddedKeys<K, V>(m: map<K, V>, keys: seq<K>, done: map<K, V>)
    requires (forall i | 0 <= i < |keys| :: keys[i] in m) && (forall k <- done :: k in m && done[k] == m[k])
    ensures forall k :: k in Added(m, keys, done) <==> k in done || k in keys
    ensures forall k <- Added(m, keys, done) :: k in m && Added(m, keys, done)[k] == m[k]
    decreases |keys|
  {
    if keys != [] {
      AddedKeys(m, keys[1..], done[keys[0] := m[keys[0]]]);
      assert keys == [keys[0]] + keys[1..];
    }
  }

  lemma {:induction false} InsertOne<K, V>(m: map<K, V>, k: K, v: V)
    requires k !in m
    ensures |m[k := v]| == |m| + 1
  {
    assert m[k := v].Keys == m.Keys + {k};
  }

  /** Storing records under distinct keys, one by one, inserts them. */
  lemma {:induction false} FoldAdds<S, K(!new), V(!new)>(
      m: map<K, V>, keys: seq<K>, done: map<K, V>, store: (S, V) -> Result<S>, embed: map<K, V> -> S, key: V -> K,
      ok: V -> bool, bound: nat)
    requires Inserts(store, embed, key, ok, bound) && |done| + |keys| <= bound
    requires forall i | 0 <= i < |keys| ::
             keys[i] in m && keys[i] !in done && key(m[keys[i]]) == keys[i] && ok(m[keys[i]])
    requires forall i, j | 0 <= i < j < |keys| :: keys[i] != keys[j]
    ensures Fold(Records(m, keys), store, embed(done)) == Success(embed(Added(m, keys, done)))
    decreases |keys|
  {
    if keys != [] {
      var k := keys[0];
      var more := done[k := m[k]];
      assert store(embed(done), m[k]) == Success(embed(more));
      assert Records(m, keys)[1..] == Records(m, keys[1..]);
      InsertOne(done, k, m[k]);
      FoldAdds(m, keys[1..], more, store, embed, key, ok, bound);
    }
  }

  /** Storing the records of a map one by one, in any order, rebuilds the map. */
  lemma {:induction false} FoldRebuilds<S, K(!new), V(!new)>(
      m: map<K, V>, keys: seq<K>, store: (S, V) -> Result<S>, embed: map<K, V> -> S, key: V -> K, ok: V -> bool,
      bound: nat)
    requires Inserts(store, embed, key, ok, bound) && |keys| <= bound && Enumerates(keys, m.Keys)
    requires forall k <- m :: key(m[k]) == k && ok(m[k])
    ensures Fold(Records(m, keys), store, embed(map[])) == Success(embed(m))
  {
    FoldAdds(m, keys, map[], store, embed, key, ok, bound);
    AddedKeys(m, keys, map[]);
    assert Added(m, keys, map[]) == m;
  }

  lemma {:induction false} EnumerationSize<K>(keys: seq<K>, s: set<K>)
    requires Enumerates(keys, s)
    ensures |keys| == |s|
    decreases |keys|
  {
    if keys != [] {
      var k, rest := keys[0], keys[1..];
      assert forall i | 0 <= i < |rest| :: rest[i] == keys[i + 1];
      forall x | x in s - {k} ensures x in rest { assert keys == [k] + rest; }
      EnumerationSize(rest, s - {k});
    } else {
      assert s == {};
    }
  }

  /** A whole map, written in the order of `keys` and read back into an empty slot. */
  lemma {:induction false} MapRoundTrip<S, K(!new), V(!new)>(
      m: map<K, V>, keys: seq<K>, bound: nat, put: (V, Bytes) --> Bytes, take: Bytes -> Parsed<V>,
      store: (S, V) -> Result<S>, embed: map<K, V> -> S, key: V -> K, ok: V -> bool, rest: Bytes)
    requires Inserts(store, embed, key, ok, bound) && Enumerates(keys, m.Keys) && |m| <= bound < U32
    requires forall k <- m :: key(m[k]) == k && ok(m[k]) && RoundTrip(m[k], put, take)
    ensures RoundTrips(Records(m, keys), put, take) && |keys| < U32
    ensures TakeGroup(PutGroup(Records(m, keys), put, take, rest), bound, take, store, embed(map[]))
            == Success((embed(m), rest))
  {
    EnumerationSize(keys, m.Keys);
    assert |m| == |m.Keys|;
    FoldRebuilds(m, keys, store, embed, key, ok, bound);
    GroupRoundTrip(Records(m, keys), bound, put, take, store, embed(map[]), rest);
  }
}
