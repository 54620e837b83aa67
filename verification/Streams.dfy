/** Byte streams as encoders and decoders use them, and big-endian integers. */
module Streams {
  import opened Bytes

  datatype Error =
    | EndOfStream        // no byte was left
    | UnexpectedEnd      // some bytes were left, but too few
    | InvalidKind(b: Byte)

  datatype Result<+T> = Ok(value: T) | Err(error: Error)

  /** The writing end of a stream: the bytes written so far. */
  class Writer {
    var written: seq<Byte>

    constructor ()
      ensures written == []
    {
      written := [];
    }

    method Write(bytes: seq<Byte>)
      modifies this
      ensures written == old(written) + bytes
    {
      written := written + bytes;
    }
  }

  /** The reading end of a stream: the bytes still to come before its end. */
  class Reader {
    var rest: seq<Byte>

    constructor (bytes: seq<Byte>)
      ensures rest == bytes
    {
      rest := bytes;
    }

    /** Reads exactly n bytes; a stream that ends first is used up and tells whether it was already empty. */
    method ReadFull(n: nat) returns (r: Result<seq<Byte>>)
      modifies this
      ensures r.Ok? <==> n <= |old(rest)|
      ensures r.Ok? ==> r.value == old(rest)[..n] && rest == old(rest)[n..]
      ensures r.Err? ==> rest == [] && r.error == ShortRead(|old(rest)|)
    {
      if n <= |rest| {
        r := Ok(rest[..n]);
        rest := rest[n..];
      } else {
        r := Err(ShortRead(|rest|));
        rest := [];
      }
    }
  }

  function ShortRead(left: nat): Error {
    if left == 0 then EndOfStream else UnexpectedEnd
  }

  // ---- Big-endian integers ----

  function Power256(k: nat): (r: nat)
    ensures r >= 1
  {
    if k == 0 then 1 else 256 * Power256(k - 1)
  }

  /** The k low bytes of n, most significant first. Higher bytes are dropped, as a conversion to k bytes drops them. */
  function Encode(n: nat, k: nat): (r: seq<Byte>)
    ensures |r| == k
  {
    if k == 0 then [] else Encode(n / 256, k - 1) + [n % 256]
  }

  function Decode(s: seq<Byte>): nat {
    if s == [] then 0 else 256 * Decode(s[..|s| - 1]) + s[|s| - 1]
  }

  lemma {:induction false} DecodeOfEncode(n: nat, k: nat)
    ensures Decode(Encode(n, k)) == n % Power256(k)
  {
    if k > 0 {
      DecodeOfEncode(n / 256, k - 1);
      assert Encode(n, k)[..k - 1] == Encode(n / 256, k - 1);
      SplitModulus(n, Power256(k - 1));
    }
  }

  lemma SplitModulus(n: nat, p: nat)
    requires p >= 1
    ensures n % (256 * p) == 256 * ((n / 256) % p) + n % 256
  {
    var q, r := n / 256 / p, n / 256 % p;
    assert n / 256 == q * p + r;
    assert n == (256 * p) * q + (256 * r + n % 256) by {
      assert n == 256 * (q * p + r) + n % 256;
      assert 256 * (q * p + r) == (256 * p) * q + 256 * r;
    }
    DivisionIsUnique(n, 256 * p, q, 256 * r + n % 256);
  }

  lemma {:induction false} EncodeOfDecode(s: seq<Byte>)
    ensures Decode(s) < Power256(|s|)
    ensures Encode(Decode(s), |s|) == s
  {
    if s != [] {
      EncodeOfDecode(s[..|s| - 1]);
    }
  }

  // ---- What the bytes are ----

  /** The digit of n to the base 256 that stands at place i of so many, the most significant first. */
  function Digit(n: nat, width: nat, i: nat): Byte
    requires i < width
  {
    (n / Power256(width - 1 - i)) % 256
  }

  /** At the given place the bytes are the digits of n. */
  predicate HoldsAt(bytes: seq<Byte>, at: nat, width: nat, n: nat) {
    at + width <= |bytes| && forall i | 0 <= i < width :: bytes[at + i] == Digit(n, width, i)
  }

  lemma DivideTwice(n: nat, p: nat)
    requires p >= 1
    ensures n / 256 / p == n / (256 * p)
  {
    var q, r := n / 256 / p, n / 256 % p;
    assert n / 256 == q * p + r;
    assert n == (256 * p) * q + (256 * r + n % 256) by {
      assert n == 256 * (q * p + r) + n % 256;
      assert 256 * (q * p + r) == (256 * p) * q + 256 * r;
    }
    DivisionIsUnique(n, 256 * p, q, 256 * r + n % 256);
  }

  /** Byte i of an encoded number is its digit of that weight. */
  lemma {:induction false} EncodedDigit(n: nat, k: nat, i: nat)
    requires i < k
    ensures Encode(n, k)[i] == Digit(n, k, i) == (n / Power256(k - 1 - i)) % 256
  {
    if i < k - 1 {
      EncodedDigit(n / 256, k - 1, i);
      DivideTwice(n, Power256(k - 2 - i));
    } else {
      assert n / Power256(0) == n;
    }
  }

  lemma EncodeHolds(bytes: seq<Byte>, at: nat, width: nat, n: nat)
    requires at + width <= |bytes| && bytes[at..at + width] == Encode(n, width)
    ensures HoldsAt(bytes, at, width, n)
  {
    hide Encode;
    forall i | 0 <= i < width ensures bytes[at + i] == Digit(n, width, i) {
      EncodedDigit(n, width, i);
      assert bytes[at..at + width][i] == bytes[at + i];
    }
  }

  /** The number the bytes stand for, most significant first: each byte times its weight. */
  function BigEndian(s: seq<Byte>): nat {
    if s == [] then 0 else s[0] * Power256(|s| - 1) + BigEndian(s[1..])
  }

  lemma {:induction false} BigEndianAppend(s: seq<Byte>, x: Byte)
    ensures BigEndian(s + [x]) == 256 * BigEndian(s) + x
  {
    if s == [] {
      assert [x][1..] == [] && Power256(0) == 1;
    } else {
      var t := s + [x];
      assert t[1..] == s[1..] + [x] && t[0] == s[0];
      BigEndianAppend(s[1..], x);
      assert s[0] * (256 * Power256(|s| - 1)) == 256 * (s[0] * Power256(|s| - 1));
    }
  }

  /** Decoding reads exactly that number. */
  lemma {:induction false} DecodeIsBigEndian(s: seq<Byte>)
    ensures Decode(s) == BigEndian(s)
  {
    if s != [] {
      DecodeIsBigEndian(s[..|s| - 1]);
      BigEndianAppend(s[..|s| - 1], s[|s| - 1]);
      assert s == s[..|s| - 1] + [s[|s| - 1]];
    }
  }

  lemma BigEndianStep(s: seq<Byte>, k: nat)
    requires |s| == k + 1
    ensures BigEndian(s) == s[0] * Power256(k) + BigEndian(s[1..])
  {
  }

  /** Written out for the widths in use. */
  lemma FourBytes(s: seq<Byte>)
    requires |s| == 4
    ensures BigEndian(s) == 0x100_0000 * (s[0] as int) + 0x1_0000 * (s[1] as int) + 0x100 * (s[2] as int) + s[3]
  {
    var t := s[1..];
    var u := t[1..];
    var v := u[1..];
    BigEndianStep(s, 3);
    BigEndianStep(t, 2);
    BigEndianStep(u, 1);
    BigEndianStep(v, 0);
    assert v[1..] == [] && t[0] == s[1] && u[0] == s[2] && v[0] == s[3];
    assert Power256(3) == 0x100_0000 && Power256(2) == 0x1_0000 && Power256(1) == 0x100;
  }

  lemma EightBytes(s: seq<Byte>)
    requires |s| == 8
    ensures BigEndian(s) == 0x1_0000_0000 * BigEndian(s[..4]) + BigEndian(s[4..])
  {
    BigEndianSplit(s[..4], s[4..]);
    assert s == s[..4] + s[4..];
    Widths();
  }

  lemma {:induction false} BigEndianSplit(a: seq<Byte>, b: seq<Byte>)
    ensures BigEndian(a + b) == BigEndian(a) * Power256(|b|) + BigEndian(b)
    decreases |b|
  {
    if b == [] {
      assert a + b == a;
    } else {
      var init, x := b[..|b| - 1], b[|b| - 1];
      assert b == init + [x];
      BigEndianSplit(a, init);
      BigEndianAppend(a + init, x);
      BigEndianAppend(init, x);
      AppendAssociative(a, init, [x]);
      Shifted(BigEndian(a), Power256(|init|), BigEndian(init), x);
    }
  }

  lemma Shifted(a: nat, p: nat, b: nat, x: nat)
    ensures 256 * (a * p + b) + x == a * (256 * p) + (256 * b + x)
  {
  }

  lemma Widths()
    ensures Power256(2) == U16_LIMIT && Power256(4) == U32_LIMIT && Power256(8) == U64_LIMIT
  {
    assert Power256(4) == U32_LIMIT;
  }

  lemma Fits(n: nat, k: nat)
    requires n < Power256(k)
    ensures Decode(Encode(n, k)) == n
  {
    DecodeOfEncode(n, k);
  }

  /** An eight-byte field as an integer. */
  function Decode64(s: seq<Byte>): U64
    requires |s| == 8
  {
    EncodeOfDecode(s);
    Widths();
    Decode(s)
  }

  /** A four-byte field as an integer. */
  function Decode32(s: seq<Byte>): U32
    requires |s| == 4
  {
    EncodeOfDecode(s);
    Widths();
    Decode(s)
  }
}
