/**
 The checksum every chunk carries: the reflected CRC-32 of section 8 of RFC 1952, bit by bit.
 The main result is that no error confined to 32 consecutive bits goes unnoticed, for data of
 any length. It is proved from the injectivity of the one-bit step, carried backwards.
 */
module Crc {
  import opened Bytes

  const POLYNOMIAL: bv32 := 0xEDB8_8320
  const ALL_ONES: bv32 := 0xFFFF_FFFF
  const TOP_BIT: bv32 := 0x8000_0000

  type Bit = e: bv32 | e <= 1

  /** The low k binary digits of n, least significant first: the order in which the reflected CRC takes them. */
  function Digits(n: nat, k: nat): (r: seq<Bit>)
    ensures |r| == k
  {
    if k == 0 then [] else [if n % 2 == 1 then 1 else 0] + Digits(n / 2, k - 1)
  }

  /** The register value with the given low bits. */
  function Word(bits: seq<Bit>): bv32 {
    if bits == [] then 0 else Push(bits[0], Word(bits[1..]))
  }

  function Push(e: Bit, rest: bv32): bv32 {
    e | (rest << 1)
  }

  function Xor(c: bv32, d: bv32): bv32 {
    c ^ d
  }

  /** One place through the register. */
  function Shift(c: bv32): bv32 {
    if c & 1 == 1 then (c >> 1) ^ POLYNOMIAL else c >> 1
  }

  function Shifts(c: bv32, k: nat): bv32
    decreases k
  {
    if k == 0 then c else Shifts(Shift(c), k - 1)
  }

  /** One byte through the register: xor it into the low end, then eight shifts. */
  function ByteStep(c: bv32, b: Byte): bv32 {
    Shifts(Xor(c, Word(Digits(b, 8))), 8)
  }

  function Fold(c: bv32, data: seq<Byte>): bv32
    decreases |data|
  {
    if data == [] then c else Fold(ByteStep(c, data[0]), data[1..])
  }

  function Register(data: seq<Byte>): bv32 {
    Fold(ALL_ONES, data) ^ ALL_ONES
  }

  function Checksum(data: seq<Byte>): U32 {
    Register(data) as nat
  }

  // ---- The message as a sequence of bits ----

  function BitStep(c: bv32, e: Bit): bv32 {
    Shift(Xor(c, e))
  }

  function Run(c: bv32, bits: seq<Bit>): bv32
    decreases |bits|
  {
    if bits == [] then c else Run(BitStep(c, bits[0]), bits[1..])
  }

  function Bits(data: seq<Byte>): (r: seq<Bit>)
    ensures |r| == 8 * |data|
  {
    if data == [] then [] else Digits(data[0], 8) + Bits(data[1..])
  }

  lemma {:induction false} RunAppend(c: bv32, a: seq<Bit>, b: seq<Bit>)
    ensures Run(c, a + b) == Run(Run(c, a), b)
    decreases |a|
  {
    if a == [] {
      assert a + b == b;
    } else {
      assert (a + b)[1..] == a[1..] + b;
      RunAppend(BitStep(c, a[0]), a[1..], b);
    }
  }

  // ---- A byte step is eight bit steps ----

  /** The value has no bit in the places of the mask. */
  predicate Outside(value: bv32, mask: bv32) {
    value & mask == 0
  }

  predicate HasTop(mask: bv32) {
    mask & TOP_BIT == TOP_BIT
  }

  /** z is the register c with r still to be fed in from the low end. */
  predicate Feeds(c: bv32, r: bv32, z: bv32) {
    z == c ^ r
  }

  predicate Doubled(rest: bv32, s: bv32) {
    s == rest << 1
  }

  predicate Halved(s: bv32, h: bv32) {
    h == s >> 1
  }

  predicate SameLowBit(x: bv32, z: bv32) {
    x & 1 == z & 1
  }

  lemma PushedIsMixed(c: bv32, e: Bit, rest: bv32, s: bv32, r: bv32, z: bv32, x: bv32)
    requires Doubled(rest, s) && r == Push(e, rest) && Feeds(c, r, z) && x == Xor(c, e)
    ensures Feeds(x, s, z)
  {
  }

  lemma DoublingKeepsLowBit(x: bv32, rest: bv32, s: bv32, z: bv32)
    requires Doubled(rest, s) && Feeds(x, s, z)
    ensures SameLowBit(x, z)
  {
  }

  lemma HalvingUndoesDoubling(rest: bv32, s: bv32)
    requires Doubled(rest, s) && Outside(rest, TOP_BIT)
    ensures Halved(s, rest)
  {
  }

  lemma HalvesFeed(x: bv32, s: bv32, z: bv32, hx: bv32, hs: bv32, hz: bv32)
    requires Feeds(x, s, z) && Halved(x, hx) && Halved(s, hs) && Halved(z, hz)
    ensures Feeds(hx, hs, hz)
  {
  }

  lemma ShiftByHalf(x: bv32, z: bv32, hx: bv32, hz: bv32, rest: bv32)
    requires Halved(x, hx) && Halved(z, hz) && SameLowBit(x, z) && Feeds(hx, rest, hz)
    ensures Feeds(Shift(x), rest, Shift(z))
  {
  }

  lemma FeedOneBit(c: bv32, e: Bit, rest: bv32, r: bv32, z: bv32)
    requires Outside(rest, TOP_BIT) && r == Push(e, rest) && Feeds(c, r, z)
    ensures Feeds(BitStep(c, e), rest, Shift(z))
  {
    hide Outside, Push, Feeds, Doubled, Halved, SameLowBit, Xor, Shift;
    var x, s := Xor(c, e), Double(rest);
    PushedIsMixed(c, e, rest, s, r, z, x);
    DoublingKeepsLowBit(x, rest, s, z);
    HalvingUndoesDoubling(rest, s);
    HalvesFeed(x, s, z, Half(x), rest, Half(z));
    ShiftByHalf(x, z, Half(x), Half(z), rest);
  }

  function Double(v: bv32): (s: bv32)
    ensures Doubled(v, s)
  {
    v << 1
  }

  function Half(v: bv32): (h: bv32)
    ensures Halved(v, h)
  {
    v >> 1
  }

  lemma FedCompletely(c: bv32, z: bv32)
    requires Feeds(c, 0, z)
    ensures z == c
  {
  }

  /** The register places from k upwards. */
  function High(k: nat): bv32 {
    if k == 0 then ALL_ONES else Up(High(k - 1))
  }

  function Up(mask: bv32): bv32 {
    mask << 1
  }

  lemma HighTop(k: nat)
    requires k <= 31
    ensures HasTop(High(k))
  {
    assert High(4) == 0xFFFF_FFF0;
    assert High(8) == 0xFFFF_FF00;
    assert High(12) == 0xFFFF_F000;
    assert High(16) == 0xFFFF_0000;
    assert High(20) == 0xFFF0_0000;
    assert High(24) == 0xFF00_0000;
    assert High(28) == 0xF000_0000;
  }

  lemma PushedOutside(rest: bv32, mask: bv32, e: Bit)
    requires Outside(rest, mask)
    ensures Outside(Push(e, rest), Up(mask))
  {
  }

  lemma OutsideTop(value: bv32, mask: bv32)
    requires Outside(value, mask) && HasTop(mask)
    ensures Outside(value, TOP_BIT)
  {
  }

  lemma NothingIsOutside(mask: bv32)
    ensures Outside(0, mask)
  {
  }

  lemma {:induction false} WordIsLow(bits: seq<Bit>)
    ensures Outside(Word(bits), High(|bits|))
  {
    if bits == [] {
      NothingIsOutside(High(0));
    } else {
      WordIsLow(bits[1..]);
      PushedOutside(Word(bits[1..]), High(|bits| - 1), bits[0]);
    }
  }

  /** Shifting with up to 32 bits fed in at once is feeding them in one at a time. */
  lemma {:induction false} ShiftsAreBitSteps(c: bv32, bits: seq<Bit>, z: bv32)
    requires |bits| <= 32
    requires Feeds(c, Word(bits), z)
    ensures Shifts(z, |bits|) == Run(c, bits)
    decreases |bits|
  {
    if bits == [] {
      FedCompletely(c, z);
    } else {
      var rest := Word(bits[1..]);
      WordIsLow(bits[1..]);
      HighTop(|bits| - 1);
      OutsideTop(rest, High(|bits| - 1));
      FeedOneBit(c, bits[0], rest, Word(bits), z);
      ShiftsAreBitSteps(BitStep(c, bits[0]), bits[1..], Shift(z));
    }
  }

  /** The byte-wise algorithm is the bit-wise register run over the message's bits. */
  lemma {:induction false} FoldIsRun(c: bv32, data: seq<Byte>)
    ensures Fold(c, data) == Run(c, Bits(data))
    decreases |data|
  {
    if data != [] {
      ShiftsAreBitSteps(c, Digits(data[0], 8), Xor(c, Word(Digits(data[0], 8))));
      RunAppend(c, Digits(data[0], 8), Bits(data[1..]));
      FoldIsRun(ByteStep(c, data[0]), data[1..]);
    }
  }

  // ---- Carrying a difference backwards through a message ----

  lemma ShiftInjective(c: bv32, d: bv32)
    requires Shift(c) == Shift(d)
    ensures c == d
  {
  }

  lemma XorCancels(c: bv32, d: bv32, e: bv32)
    requires c ^ e == d ^ e
    ensures c == d
  {
  }

  lemma BitStepInjective(c: bv32, d: bv32, e: Bit)
    requires BitStep(c, e) == BitStep(d, e)
    ensures c == d
  {
    ShiftInjective(c ^ e, d ^ e);
    XorCancels(c, d, e);
  }

  lemma {:induction false} RunInjectiveInState(c: bv32, d: bv32, bits: seq<Bit>)
    requires Run(c, bits) == Run(d, bits)
    ensures c == d
    decreases |bits|
  {
    if bits != [] {
      RunInjectiveInState(BitStep(c, bits[0]), BitStep(d, bits[0]), bits[1..]);
      BitStepInjective(c, d, bits[0]);
    }
  }

  /** The two registers agree on the places of the mask. */
  predicate Agree(c: bv32, d: bv32, mask: bv32) {
    (c ^ d) & mask == 0
  }

  lemma AgreeBeforeBitStep(c: bv32, d: bv32, e: Bit, f: Bit, mask: bv32)
    requires Agree(BitStep(c, e), BitStep(d, f), mask) && HasTop(mask)
    ensures Agree(c, d, Up(mask))
  {
  }

  lemma SameBitBeforeBitStep(c: bv32, e: Bit, f: Bit, mask: bv32)
    requires Agree(BitStep(c, e), BitStep(c, f), mask) && HasTop(mask)
    ensures e == f
  {
  }

  lemma AgreeWithItself(c: bv32, mask: bv32)
    ensures Agree(c, c, mask)
  {
  }

  /** If two runs of at most 32 bits meet, they started within that many low places of each other. */
  lemma {:induction false} RunsThatMeet(c: bv32, d: bv32, a: seq<Bit>, b: seq<Bit>)
    requires |a| == |b| <= 32
    requires Run(c, a) == Run(d, b)
    ensures Agree(c, d, High(|a|))
    ensures c == d ==> a == b
    decreases |a|
  {
    if a == [] {
      AgreeWithItself(c, High(0));
    } else {
      var k := |a| - 1;
      RunsThatMeet(BitStep(c, a[0]), BitStep(d, b[0]), a[1..], b[1..]);
      HighTop(k);
      AgreeBeforeBitStep(c, d, a[0], b[0], High(k));
      if c == d {
        SameBitBeforeBitStep(c, a[0], b[0], High(k));
        assert a == [a[0]] + a[1..] && b == [b[0]] + b[1..];
      }
    }
  }

  lemma RunInThree(c: bv32, a: seq<Bit>, lo: nat, hi: nat)
    requires lo <= hi <= |a|
    ensures Run(c, a) == Run(Run(Run(c, a[..lo]), a[lo..hi]), a[hi..])
  {
    assert a[..hi] == a[..lo] + a[lo..hi];
    RunAppend(c, a[..lo], a[lo..hi]);
    assert a == a[..hi] + a[hi..];
    RunAppend(c, a[..hi], a[hi..]);
  }

  lemma MeetingRunsAgree(c: bv32, a: seq<Bit>, b: seq<Bit>, w: nat)
    requires |a| == |b|
    requires forall i | 0 <= i < |a| && !(w <= i < w + 32) :: a[i] == b[i]
    requires Run(c, a) == Run(c, b)
    ensures a == b
  {
    hide Run;
    var lo := if w < |a| then w else |a|;
    var hi := if w + 32 < |a| then w + 32 else |a|;
    assert a[..lo] == b[..lo] && a[hi..] == b[hi..];
    RunInThree(c, a, lo, hi);
    RunInThree(c, b, lo, hi);
    WindowsAgree(Run(c, a[..lo]), a[lo..hi], b[lo..hi], a[hi..]);
    forall i | 0 <= i < |a| ensures a[i] == b[i] {
      assert lo <= i < hi ==> a[i] == a[lo..hi][i - lo] == b[lo..hi][i - lo] == b[i];
    }
  }

  lemma WindowsAgree(c: bv32, a: seq<Bit>, b: seq<Bit>, rest: seq<Bit>)
    requires |a| == |b| <= 32
    requires Run(Run(c, a), rest) == Run(Run(c, b), rest)
    ensures a == b
  {
    RunInjectiveInState(Run(c, a), Run(c, b), rest);
    RunsThatMeet(c, c, a, b);
  }

  // ---- Bits decide bytes ----

  lemma {:induction false} DigitsInjective(m: nat, n: nat, k: nat)
    requires Digits(m, k) == Digits(n, k)
    requires m < Power2(k) && n < Power2(k)
    ensures m == n
  {
    if k > 0 {
      assert Digits(m, k)[0] == Digits(n, k)[0];
      assert Digits(m / 2, k - 1) == Digits(m, k)[1..] == Digits(n, k)[1..] == Digits(n / 2, k - 1);
      DigitsInjective(m / 2, n / 2, k - 1);
    }
  }

  function Power2(k: nat): (r: nat)
    ensures r >= 1
  {
    if k == 0 then 1 else 2 * Power2(k - 1)
  }

  lemma {:induction false} BitsInjective(data: seq<Byte>, other: seq<Byte>)
    requires |data| == |other| && Bits(data) == Bits(other)
    ensures data == other
  {
    if data != [] {
      assert Digits(data[0], 8) == Bits(data)[..8] == Bits(other)[..8] == Digits(other[0], 8);
      assert Bits(data[1..]) == Bits(data)[8..] == Bits(other)[8..] == Bits(other[1..]);
      assert Power2(8) == 256;
      DigitsInjective(data[0], other[0], 8);
      BitsInjective(data[1..], other[1..]);
    }
  }

  // ---- Error detection ----

  /** The two byte strings agree, bit by bit, outside the 32 bits that start at bit w. */
  ghost predicate WithinBurst(data: seq<Byte>, other: seq<Byte>, w: nat) {
    && |data| == |other|
    && forall i | 0 <= i < 8 * |data| && !(w <= i < w + 32) :: Bits(data)[i] == Bits(other)[i]
  }

  /** Every error confined to 32 consecutive bits changes the checksum, however long the data. */
  lemma BurstErrorDetected(data: seq<Byte>, other: seq<Byte>, w: nat)
    requires WithinBurst(data, other, w)
    requires data != other
    ensures Checksum(data) != Checksum(other)
  {
    if Checksum(data) == Checksum(other) {
      SameRegister(data, other);
      FoldIsRun(ALL_ONES, data);
      FoldIsRun(ALL_ONES, other);
      MeetingRunsAgree(ALL_ONES, Bits(data), Bits(other), w);
      BitsInjective(data, other);
    }
  }

  lemma SameRegister(data: seq<Byte>, other: seq<Byte>)
    requires Checksum(data) == Checksum(other)
    ensures Fold(ALL_ONES, data) == Fold(ALL_ONES, other)
  {
    RegisterRoundTrip(Register(data));
    RegisterRoundTrip(Register(other));
    XorCancels(Fold(ALL_ONES, data), Fold(ALL_ONES, other), ALL_ONES);
  }

  lemma RegisterRoundTrip(r: bv32)
    ensures (r as nat) as bv32 == r
  {
  }

  /** Changes confined to four consecutive bytes are confined to 32 consecutive bits. */
  lemma FourBytesAreABurst(data: seq<Byte>, other: seq<Byte>, k: nat)
    requires |data| == |other|
    requires forall i | 0 <= i < |data| && !(k <= i < k + 4) :: data[i] == other[i]
    ensures WithinBurst(data, other, 8 * k)
  {
    forall i | 0 <= i < 8 * |data| && !(8 * k <= i < 8 * k + 32)
      ensures Bits(data)[i] == Bits(other)[i]
    {
      BitAt(data, i);
      BitAt(other, i);
    }
  }

  lemma {:induction false} BitAt(data: seq<Byte>, i: nat)
    requires i < 8 * |data|
    ensures Bits(data)[i] == Digits(data[i / 8], 8)[i % 8]
  {
    if i >= 8 {
      assert Bits(data)[i] == Bits(data[1..])[i - 8];
      assert (i - 8) / 8 == i / 8 - 1 && (i - 8) % 8 == i % 8;
      BitAt(data[1..], i - 8);
    }
  }
}
