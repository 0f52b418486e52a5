/** The buffers behind the codec (src/core/bytes.cpp): a writer that grows, a reader that advances, and
    their byte loops, proved against the fields of `Wire`. */
module ByteBuffers {
  import opened Model
  import opened Wire

  /** The `i` most significant of the `w` bytes. */
  lemma {:induction false} BigEndianPrefix(x: nat, w: nat, i: nat)
    requires i <= w
    ensures BigEndian(x, w)[..i] == BigEndian(x / Pow256(w - i), i)
    decreases w - i
  {
    if i == w {
      assert Pow256(0) == 1;
    } else {
      BigEndianPrefix(x / 256, w - 1, i);
      assert BigEndian(x, w)[..i] == BigEndian(x / 256, w - 1)[..i];
      DivideTwice(x, Pow256(w - 1 - i));
    }
  }

  lemma DivideTwice(x: nat, p: nat)
    requires p > 0
    ensures x / 256 / p == x / (256 * p)
  {
    var q, r := x / 256 / p, x / 256 % p;
    var s := x % 256;
    assert x == 256 * (p * q + r) + s == (256 * p) * q + (256 * r + s);
    assert 0 <= 256 * r + s < 256 * p;
    QuotientUnique(x, 256 * p, q, 256 * r + s);
  }

  lemma QuotientUnique(x: nat, d: nat, q: nat, r: nat)
    requires d > 0 && x == d * q + r && r < d
    ensures x / d == q
  {
    var e := x / d - q;
    assert x == d * (x / d) + x % d;
    assert d * e == r - x % d;
  }

  class ByteWriter {
    var data: Bytes

    constructor ()
      ensures data == []
    {
      data := [];
    }

    /** `append_be`: one byte per turn, most significant first. */
    method PutBytes(x: nat, w: nat)
      modifies this
      ensures data == old(data) + BigEndian(x, w)
    {
      for i := 0 to w
        invariant data == old(data) + BigEndian(x, w)[..i]
      {
        BigEndianPrefix(x, w, i + 1);
        ghost var shifted := x / Pow256(w - 1 - i);
        assert BigEndian(x, w)[..i + 1][i] == shifted % 256;
        data := data + [x / Pow256(w - 1 - i) % 256];
        assert BigEndian(x, w)[..i + 1] == BigEndian(x, w)[..i] + [BigEndian(x, w)[i]];
      }
      assert BigEndian(x, w)[..w] == BigEndian(x, w);
    }

    method Raw(b: Bytes)
      modifies this
      ensures data == old(data) + b
    {
      data := data + b;
    }

    /** `blob`: the reader gets back the text and whatever is written after it. */
    method Blob(t: Bytes)
      requires |t| < U32
      modifies this
      ensures data == old(data) + BigEndian(|t|, 4) + t
      ensures forall max: nat, rest: Bytes :: IsText(t, max) && max < U32 ==>
                TakeBlob(data[|old(data)|..] + rest, max) == Success((t, rest))
    {
      PutBytes(|t|, 4);
      Raw(t);
      forall max: nat, rest: Bytes | IsText(t, max) && max < U32
        ensures TakeBlob(data[|old(data)|..] + rest, max) == Success((t, rest))
      {
        assert data[|old(data)|..] + rest == BigEndian(|t|, 4) + (t + rest) == PutBlob(t, max, rest);
      }
    }
  }

  class ByteReader {
    const data: Bytes
    var offset: nat

    constructor (data: Bytes)
      ensures this.data == data && offset == 0
    {
      this.data := data;
      offset := 0;
    }

    predicate Valid()
      reads this
    {
      offset <= |data|
    }

    function Rest(): Bytes
      reads this
      requires Valid()
    {
      data[offset..]
    }

    /** `read_be`: nothing is consumed when too few bytes are left. */
    method TakeBytes(w: nat) returns (r: Result<nat>)
      requires Valid()
      modifies this
      ensures Valid()
      ensures match TakeInt(old(Rest()), w)
              case Success((x, rest)) => r == Success(x) && Rest() == rest
              case Failure(o) => r == Failure(o) && offset == old(offset)
    {
      if |data| - offset < w { return Failure(Incomplete); }
      var x: nat := 0;
      for i := 0 to w
        invariant Valid() && offset == old(offset) && x == FromBigEndian(data[offset..offset + i])
      {
        assert data[offset..offset + i + 1][..i] == data[offset..offset + i];
        x := 256 * x + data[offset + i];
      }
      assert Rest()[..w] == data[offset..offset + w] && Rest()[w..] == data[offset + w..];
      offset := offset + w;
      return Success(x);
    }

    /** `blob`. */
    method TakeString(max: nat) returns (r: Result<Bytes>)
      requires Valid()
      modifies this
      ensures Valid()
      ensures match TakeBlob(old(Rest()), max)
              case Success((t, rest)) => r == Success(t) && Rest() == rest
              case Failure(o) => r == Failure(o)
    {
      var n := TakeBytes(4);
      if n.Failure? { return Failure(n.outcome); }
      if n.value > max { return Failure(Invalid); }
      if |data| - offset < n.value { return Failure(Incomplete); }
      var t := data[offset..offset + n.value];
      assert Rest()[..n.value] == t && Rest()[n.value..] == data[offset + n.value..];
      offset := offset + n.value;
      if !ValidUtf8(t) { return Failure(Invalid); }
      return Success(t);
    }
  }
}
