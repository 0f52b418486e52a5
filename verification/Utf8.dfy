/** The text the codec lets through (`is_valid_utf8` of src/core/utf8.cpp) is exactly the UTF-8 of section 3 of
    RFC 3629. */
module Utf8Text {
  import opened Model
  import opened Wire

  /** A Unicode scalar value: no surrogate, nothing past U+10FFFF. */
  predicate Scalar(c: nat) { c <= 0x10FFFF && !(0xD800 <= c <= 0xDFFF) }

  /** Six bits at a time, as few bytes as will do. */
  function EncodeScalar(c: nat): Bytes
    requires Scalar(c)
  {
    if c < 0x80 then [c]
    else if c < 0x800 then [0xC0 + c / 0x40, 0x80 + c % 0x40]
    else if c < 0x10000 then [0xE0 + c / 0x1000, 0x80 + c / 0x40 % 0x40, 0x80 + c % 0x40]
    else [0xF0 + c / 0x40000, 0x80 + c / 0x1000 % 0x40, 0x80 + c / 0x40 % 0x40, 0x80 + c % 0x40]
  }

  predicate Scalars(cs: seq<nat>) { forall i | 0 <= i < |cs| :: Scalar(cs[i]) }

  function EncodeText(cs: seq<nat>): Bytes
    requires Scalars(cs)
    decreases |cs|
  {
    if cs == [] then [] else EncodeScalar(cs[0]) + EncodeText(cs[1..])
  }

  lemma {:induction false} PointOfOne(lead: int, t: Bytes)
    requires |t| == 1
    ensures CodePoint(lead, t) == lead * 0x40 + (t[0] as int - 0x80)
  {
  }

  lemma {:induction false} PointOfTwo(lead: int, t: Bytes)
    requires |t| == 2
    ensures CodePoint(lead, t) == lead * 0x1000 + (t[0] as int - 0x80) * 0x40 + (t[1] as int - 0x80)
  {
    PointOfOne(lead * 0x40 + (t[0] as int - 0x80), t[1..]);
  }

  lemma {:induction false} PointOfThree(lead: int, t: Bytes)
    requires |t| == 3
    ensures CodePoint(lead, t)
         == lead * 0x40000 + (t[0] as int - 0x80) * 0x1000 + (t[1] as int - 0x80) * 0x40 + (t[2] as int - 0x80)
  {
    PointOfTwo(lead * 0x40 + (t[0] as int - 0x80), t[1..]);
  }

  /** The bits of a scalar, put together again. */
  lemma {:induction false} Bits(c: nat)
    ensures c == c / 0x40 * 0x40 + c % 0x40 && c / 0x40 == c / 0x1000 * 0x40 + c / 0x40 % 0x40
    ensures c / 0x1000 == c / 0x40000 * 0x40 + c / 0x1000 % 0x40
  {
    assert c / 0x40 / 0x40 == c / 0x1000;
    assert c / 0x1000 / 0x40 == c / 0x40000;
  }

  /** One scalar in front of valid text is valid text. */
  lemma {:induction false} OneMore(c: nat, rest: Bytes)
    requires Scalar(c) && ValidUtf8(rest)
    ensures ValidUtf8(EncodeScalar(c) + rest)
  {
    var one := EncodeScalar(c);
    var t := one + rest;
    Bits(c);
    assert t[|one|..] == rest;
    if 0x80 <= c < 0x800 {
      PointOfOne(t[0] as int - 0xC0, t[1..2]);
    } else if 0x800 <= c < 0x10000 {
      PointOfTwo(t[0] as int - 0xE0, t[1..3]);
    } else if 0x10000 <= c {
      PointOfThree(t[0] as int - 0xF0, t[1..4]);
    }
  }

  lemma {:induction false} TextIsValid(cs: seq<nat>)
    requires Scalars(cs)
    ensures ValidUtf8(EncodeText(cs))
    decreases |cs|
  {
    if cs != [] {
      TextIsValid(cs[1..]);
      OneMore(cs[0], EncodeText(cs[1..]));
    }
  }

  /** How many bytes the lead byte announces. */
  function Announced(lead: Byte): nat {
    if lead < 0x80 then 1 else if lead < 0xE0 then 2 else if lead < 0xF0 then 3 else 4
  }

  function Point(t: Bytes): int
    requires t != [] && |t| >= Announced(t[0])
  {
    if t[0] < 0x80 then t[0] as int
    else if t[0] < 0xE0 then CodePoint(t[0] as int - 0xC0, t[1..2])
    else if t[0] < 0xF0 then CodePoint(t[0] as int - 0xE0, t[1..3])
    else CodePoint(t[0] as int - 0xF0, t[1..4])
  }

  lemma {:induction false} ValidParts(t: Bytes)
    requires ValidUtf8(t) && t != []
    ensures |t| >= Announced(t[0]) && Scalar(Point(t)) && ValidUtf8(t[Announced(t[0])..])
    ensures Announced(t[0]) == if Point(t) < 0x80 then 1 else if Point(t) < 0x800 then 2 else if Point(t) < 0x10000
            then 3 else 4
    ensures Continues(t, Announced(t[0]) - 1) && (t[0] < 0x80 || 0xC0 <= t[0] < 0xF8)
  {
    if 0xC0 <= t[0] < 0xE0 {
      PointOfOne(t[0] as int - 0xC0, t[1..2]);
    } else if 0xE0 <= t[0] < 0xF0 {
      PointOfTwo(t[0] as int - 0xE0, t[1..3]);
    }
  }

  lemma {:induction false} Digits64(c: nat, a: nat, b: nat, d: nat, e: nat)
    requires b < 0x40 && d < 0x40 && e < 0x40 && c == a * 0x40000 + b * 0x1000 + d * 0x40 + e
    ensures c % 0x40 == e && c / 0x40 % 0x40 == d && c / 0x1000 % 0x40 == b && c / 0x40000 == a
    ensures c / 0x1000 == a * 0x40 + b && c / 0x40 == a * 0x1000 + b * 0x40 + d
  {
    assert c == 0x40 * (a * 0x1000 + b * 0x40 + d) + e;
    assert c / 0x40 == a * 0x1000 + b * 0x40 + d;
    assert c == 0x1000 * (a * 0x40 + b) + (d * 0x40 + e);
    assert c / 0x1000 == a * 0x40 + b;
    assert c == 0x40000 * a + (b * 0x1000 + d * 0x40 + e);
  }

  /** The announced bytes of valid text are the encoding of their scalar. */
  lemma {:induction false} FirstScalar(t: Bytes)
    requires ValidUtf8(t) && t != []
    ensures |t| >= Announced(t[0]) && Scalar(Point(t)) && ValidUtf8(t[Announced(t[0])..])
    ensures EncodeScalar(Point(t)) == t[..Announced(t[0])]
  {
    ValidParts(t);
    var c := Point(t);
    if 0xC0 <= t[0] < 0xE0 {
      PointOfOne(t[0] as int - 0xC0, t[1..2]);
      Digits64(c, 0, 0, t[0] as int - 0xC0, t[1] as int - 0x80);
    } else if 0xE0 <= t[0] < 0xF0 {
      PointOfTwo(t[0] as int - 0xE0, t[1..3]);
      Digits64(c, 0, t[0] as int - 0xE0, t[1] as int - 0x80, t[2] as int - 0x80);
    } else if 0xF0 <= t[0] {
      PointOfThree(t[0] as int - 0xF0, t[1..4]);
      Digits64(c, t[0] as int - 0xF0, t[1] as int - 0x80, t[2] as int - 0x80, t[3] as int - 0x80);
    }
  }

  lemma {:induction false} ScalarThenText(t: Bytes, n: nat, c: nat, rest: seq<nat>)
    requires Scalar(c) && Scalars(rest) && n <= |t| && t[..n] == EncodeScalar(c) && t[n..] == EncodeText(rest)
    ensures Scalars([c] + rest) && EncodeText([c] + rest) == t
  {
    assert ([c] + rest)[1..] == rest;
    assert t == t[..n] + t[n..];
  }

  /** And nothing else is: every valid text is the encoding of scalar values. */
  lemma {:induction false} ValidIsText(t: Bytes) returns (cs: seq<nat>)
    requires ValidUtf8(t)
    ensures Scalars(cs) && t == EncodeText(cs)
    decreases |t|
  {
    cs := [];
    if t != [] {
      FirstScalar(t);
      var n := Announced(t[0]);
      var rest := ValidIsText(t[n..]);
      cs := [Point(t)] + rest;
      ScalarThenText(t, n, Point(t), rest);
    }
  }

  // ---- identities ----

  predicate LetterOrDigit(c: int) {
    'a' as int <= c <= 'z' as int || 'A' as int <= c <= 'Z' as int || '0' as int <= c <= '9' as int
  }

  /** A name is 1 to 96 letters, digits, dots, underscores and dashes, and begins with a letter or digit. */
  lemma NameExactly(t: Bytes)
    ensures IsName(t) <==>
              && 1 <= |t| <= 96 && LetterOrDigit(t[0])
              && forall i | 0 <= i < |t| :: LetterOrDigit(t[i]) || t[i] in {'.' as int, '_' as int, '-' as int}
  {
  }

  /** A scope is 1 to 192 of these, slashes, colons and at signs. */
  lemma ScopeExactly(t: Bytes)
    ensures IsScope(t) <==>
              && 1 <= |t| <= 192
              && forall i | 0 <= i < |t| ::
                   LetterOrDigit(t[i])
                   || t[i] in {'.' as int, '_' as int, '-' as int, '/' as int, ':' as int, '@' as int}
  {
  }
}
