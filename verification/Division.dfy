/**
 Which CRC the checksum is. Polynomials over the field of two elements are sequences of coefficients, highest
 first. The checksum is the complement of what long division by the generator of section 8.1.1.6.2 of ITU-T V.42
 leaves of the message, the low bit of every byte first, with 32 zeros appended and its first 32 coefficients
 inverted. Its lowest digit is the coefficient of the highest power.
 */
module Division {
  import opened Bytes
  import opened Crc

  type Polynomial = seq<bool>

  function Zeros(n: nat): (r: Polynomial)
    ensures |r| == n
  {
    seq(n, i => false)
  }

  function Ones(n: nat): (r: Polynomial)
    ensures |r| == n
  {
    seq(n, i => true)
  }

  /** The sum, which is also the difference. */
  function Plus(a: Polynomial, b: Polynomial): (r: Polynomial)
    requires |a| == |b|
    ensures |r| == |a|
  {
    seq(|a|, i requires 0 <= i < |a| => a[i] != b[i])
  }

  /** The powers of the generator whose coefficient is one. */
  predicate IsExponent(e: nat) {
    e in {32, 26, 23, 22, 16, 12, 11, 10, 8, 7, 5, 4, 2, 1, 0}
  }

  function Generator(): Polynomial {
    seq(33, i requires 0 <= i < 33 => IsExponent(32 - i))
  }

  /** One step of long division: a leading coefficient that is one is cancelled with the generator. */
  function Reduced(d: Polynomial): (r: Polynomial)
    requires |d| >= 33
    ensures |r| == |d| - 1
  {
    if d[0] then Plus(d[..33], Generator())[1..] + d[33..] else d[1..]
  }

  function Remainder(d: Polynomial): (r: Polynomial)
    requires |d| >= 32
    ensures |r| == 32
    decreases |d|
  {
    if |d| == 32 then d else Remainder(Reduced(d))
  }

  function Quotient(d: Polynomial): (r: Polynomial)
    requires |d| >= 32
    ensures |r| == |d| - 32
    decreases |d|
  {
    if |d| == 32 then [] else [d[0]] + Quotient(Reduced(d))
  }

  /** The product of a polynomial with the generator. */
  function Multiple(q: Polynomial): (r: Polynomial)
    ensures |r| == |q| + 32
  {
    if q == [] then Zeros(32)
    else Plus((if q[0] then Generator() else Zeros(33)) + Zeros(|q| - 1), [false] + Multiple(q[1..]))
  }

  lemma Regrouped(d: Polynomial, m: Polynomial, r: Polynomial)
    requires |d| >= 33 && |m| == |r| == |d| - 1
    requires Reduced(d) == Plus(m, r)
    ensures d == Plus(Plus((if d[0] then Generator() else Zeros(33)) + Zeros(|d| - 33), [false] + m), [false] + r)
  {
    assert d[1..] == d[1..33] + d[33..];
    if d[0] {
      forall i | 0 < i < |d|
        ensures d[i] == (((Generator() + Zeros(|d| - 33))[i] != m[i - 1]) != r[i - 1])
      {
        assert Reduced(d)[i - 1] == (m[i - 1] != r[i - 1]);
        assert Reduced(d)[i - 1] == if i < 33 then d[i] != Generator()[i] else d[i];
      }
    }
  }

  lemma ZerosBefore(n: nat, r: Polynomial)
    ensures Zeros(n + 1) + r == [false] + (Zeros(n) + r)
  {
  }

  lemma NothingBefore(r: Polynomial)
    ensures r == Plus(Zeros(|r|), Zeros(0) + r)
  {
  }

  /** Long division is division: the dividend is a multiple of the generator and the remainder. */
  lemma {:induction false} RemainderRemains(d: Polynomial)
    requires |d| >= 32
    ensures d == Plus(Multiple(Quotient(d)), Zeros(|d| - 32) + Remainder(d))
    decreases |d|
  {
    hide Reduced, Plus, IsExponent, Zeros;
    if |d| > 32 {
      var q, r := Quotient(Reduced(d)), Zeros(|d| - 33) + Remainder(d);
      RemainderRemains(Reduced(d));
      assert Quotient(d)[1..] == q;
      ZerosBefore(|d| - 33, Remainder(d));
      Regrouped(d, Multiple(q), r);
    } else {
      NothingBefore(d);
    }
  }

  // ---- The message as a polynomial ----

  /** The bits of the data in the order in which they are divided: byte by byte, the lowest digit first. */
  function MessageBits(data: seq<Byte>): (r: Polynomial)
    ensures |r| == 8 * |data|
  {
    seq(8 * |data|, i requires 0 <= i < 8 * |data| => (data[i / 8] / Power2(i % 8)) % 2 == 1)
  }

  function Dividend(data: seq<Byte>): (r: Polynomial)
    ensures |r| == 8 * |data| + 32
  {
    var d := MessageBits(data) + Zeros(32);
    Plus(d[..32], Ones(32)) + d[32..]
  }

  /** The number whose binary digits these are, lowest first. */
  function Number(digits: seq<bool>): nat {
    if digits == [] then 0 else (if digits[0] then 1 else 0) + 2 * Number(digits[1..])
  }

  // ---- The register as a polynomial ----

  predicate Low(c: bv32) {
    c & 1 == 1
  }

  /** The k lowest places of the register, lowest first. */
  function Places(c: bv32, k: nat): (r: Polynomial)
    ensures |r| == k
    decreases k
  {
    if k == 0 then [] else [Low(c)] + Places(Half(c), k - 1)
  }

  lemma LowOfXor(c: bv32, d: bv32)
    ensures Low(Xor(c, d)) == (Low(c) != Low(d))
  {
  }

  lemma HalfOfXor(c: bv32, d: bv32)
    ensures Half(Xor(c, d)) == Xor(Half(c), Half(d))
  {
  }

  lemma {:induction false} PlacesOfXor(c: bv32, d: bv32, k: nat)
    ensures Places(Xor(c, d), k) == Plus(Places(c, k), Places(d, k))
    decreases k
  {
    hide Xor, Low, Half;
    if k > 0 {
      LowOfXor(c, d);
      HalfOfXor(c, d);
      PlacesOfXor(Half(c), Half(d), k - 1);
    }
  }

  lemma NothingThere(c: bv32)
    requires Outside(c, ALL_ONES)
    ensures !Low(c)
  {
  }

  lemma HalfIsOutside(c: bv32, mask: bv32)
    requires Outside(c, Up(mask))
    ensures Outside(Half(c), mask)
  {
  }

  lemma HalfHasNoTop(c: bv32)
    ensures Outside(Half(c), TOP_BIT)
  {
  }

  lemma HighestIsTop()
    ensures High(31) == TOP_BIT
  {
    assert High(4) == 0xFFFF_FFF0;
    assert High(8) == 0xFFFF_FF00;
    assert High(12) == 0xFFFF_F000;
    assert High(16) == 0xFFFF_0000;
    assert High(20) == 0xFFF0_0000;
    assert High(24) == 0xFF00_0000;
    assert High(28) == 0xF000_0000;
  }

  lemma {:induction false} PlaceAbove(c: bv32, k: nat)
    requires Outside(c, High(k))
    ensures Places(c, k + 1) == Places(c, k) + [false]
    decreases k
  {
    hide Outside, Low, Half, Up;
    if k == 0 {
      NothingThere(c);
      assert Places(c, 1) == [Low(c)] + Places(Half(c), 0);
    } else {
      HalfIsOutside(c, High(k - 1));
      PlaceAbove(Half(c), k - 1);
    }
  }

  lemma PlacesOfHalf(c: bv32)
    ensures Places(Half(c), 32) == Places(c, 32)[1..] + [false]
  {
    hide Outside, Low, Half, High;
    HalfHasNoTop(c);
    HighestIsTop();
    PlaceAbove(Half(c), 31);
    assert Places(c, 32) == [Low(c)] + Places(Half(c), 31);
  }

  lemma FourPlaces(c: bv32, rest: bv32, k: nat, e: bool, f: bool, g: bool, h: bool)
    requires Low(c) == e && Low(Half(c)) == f && Low(Half(Half(c))) == g && Low(Half(Half(Half(c)))) == h
    requires rest == Half(Half(Half(Half(c))))
    ensures Places(c, k + 4) == [e, f, g, h] + Places(rest, k)
  {
    hide Low, Half;
    assert Places(c, k + 4) == [e] + ([f] + Places(Half(Half(c)), k + 2));
    assert Places(Half(Half(c)), k + 2) == [g] + ([h] + Places(rest, k));
  }

  /** The constant of the register is the generator without its highest power, lowest place first. */
  lemma GeneratorPlaces()
    ensures Places(POLYNOMIAL, 32) == Generator()[1..]
  {
    hide Places;
    FourPlaces(0x0000_000E, 0x0000_0000, 0, false, true, true, true);
    FourPlaces(0x0000_00ED, 0x0000_000E, 4, true, false, true, true);
    FourPlaces(0x0000_0EDB, 0x0000_00ED, 8, true, true, false, true);
    FourPlaces(0x0000_EDB8, 0x0000_0EDB, 12, false, false, false, true);
    FourPlaces(0x000E_DB88, 0x0000_EDB8, 16, false, false, false, true);
    FourPlaces(0x00ED_B883, 0x000E_DB88, 20, true, true, false, false);
    FourPlaces(0x0EDB_8832, 0x00ED_B883, 24, false, true, false, false);
    FourPlaces(0xEDB8_8320, 0x0EDB_8832, 28, false, false, false, false);
  }

  // ---- One bit through the register is one step of long division ----

  lemma LowOfBit(e: Bit)
    ensures Low(e) == (e == 1) && Half(e) == 0
  {
  }

  lemma NothingInZero()
    ensures !Low(0) && Half(0) == 0
  {
  }

  lemma {:induction false} PlacesOfZero(k: nat)
    ensures Places(0, k) == Zeros(k)
  {
    hide Low, Half;
    if k > 0 {
      NothingInZero();
      PlacesOfZero(k - 1);
    }
  }

  lemma ShiftIsHalf(c: bv32)
    ensures Shift(c) == if Low(c) then Xor(Half(c), POLYNOMIAL) else Half(c)
  {
  }

  lemma PlacesOfBit(e: Bit)
    ensures Places(e, 32) == [e == 1] + Zeros(31)
  {
    hide Low, Half;
    LowOfBit(e);
    PlacesOfZero(31);
  }

  lemma PlacesWithBit(c: bv32, e: Bit)
    ensures Low(Xor(c, e)) == (Places(c, 32)[0] != (e == 1))
    ensures Places(Xor(c, e), 32)[1..] == Places(c, 32)[1..]
  {
    hide Xor, Low, Half, Places;
    PlacesOfXor(c, e, 32);
    PlacesOfBit(e);
    LowestPlace(Xor(c, e));
  }

  lemma LowestPlace(c: bv32)
    ensures Places(c, 32)[0] == Low(c)
  {
    hide Low, Half;
  }

  /** The register after a bit: up by one power, and the generator taken away if a one came out. */
  lemma PlacesAfterBit(c: bv32, e: Bit)
    ensures Places(BitStep(c, e), 32)
         == if Places(c, 32)[0] != (e == 1)
            then Plus(Places(c, 32)[1..] + [false], Generator()[1..])
            else Places(c, 32)[1..] + [false]
  {
    hide Xor, Low, Half, Shift, Places, Plus, IsExponent;
    var x := Xor(c, e);
    PlacesWithBit(c, e);
    PlacesOfHalf(x);
    ShiftIsHalf(x);
    PlacesOfXor(Half(x), POLYNOMIAL, 32);
    GeneratorPlaces();
  }

  /** The coefficients still to be divided when the register is c: it has been added onto the next 32. */
  function Pending(c: bv32, w: Polynomial): (r: Polynomial)
    requires |w| >= 32
    ensures |r| == |w|
  {
    Plus(w[..32], Places(c, 32)) + w[32..]
  }

  lemma BitStepReduces(c: bv32, e: Bit, w: Polynomial)
    requires |w| >= 33 && w[0] == (e == 1)
    ensures Reduced(Pending(c, w)) == Pending(BitStep(c, e), w[1..])
  {
    hide BitStep, Places;
    PlacesAfterBit(c, e);
    StepOnCoefficients(Places(c, 32), w);
  }

  /** The same, said of the coefficients alone. */
  lemma StepOnCoefficients(p: Polynomial, w: Polynomial)
    requires |p| == 32 && |w| >= 33
    ensures Reduced(Plus(w[..32], p) + w[32..])
         == Plus(w[1..][..32], if p[0] != w[0] then Plus(p[1..] + [false], Generator()[1..]) else p[1..] + [false])
          + w[1..][32..]
  {
    hide IsExponent;
    var d := Plus(w[..32], p) + w[32..];
    assert d[33..] == w[1..][32..];
    assert d[1..] == d[1..33] + d[33..];
    assert d[0] == (w[0] != p[0]);
    forall i | 0 <= i < 32 ensures d[1..33][i] == (w[1..][..32][i] != (p[1..] + [false])[i]) {
      assert d[1..33][i] == d[i + 1] && w[1..][..32][i] == w[i + 1];
      if i < 31 {
        assert d[i + 1] == (w[..32][i + 1] != p[i + 1]);
      } else {
        assert d[32] == w[32];
      }
    }
  }

  /** Feeding bits to the register leaves what dividing by the generator leaves. */
  lemma {:induction false} RunDivides(c: bv32, bits: seq<Bit>, w: Polynomial)
    requires |w| == |bits| + 32
    requires forall i | 0 <= i < |bits| :: w[i] == (bits[i] == 1)
    requires forall i | |bits| <= i < |w| :: !w[i]
    ensures Places(Run(c, bits), 32) == Remainder(Pending(c, w))
    decreases |bits|
  {
    hide BitStep, Places;
    if bits == [] {
      assert Pending(c, w) == Places(c, 32);
    } else {
      BitStepReduces(c, bits[0], w);
      RunDivides(BitStep(c, bits[0]), bits[1..], w[1..]);
    }
  }

  // ---- The bits of the message ----

  lemma {:induction false} DigitAt(n: nat, k: nat, j: nat)
    requires j < k
    ensures (Digits(n, k)[j] == 1) == ((n / Power2(j)) % 2 == 1)
  {
    if j > 0 {
      DigitAt(n / 2, k - 1, j - 1);
      HalveThenDivide(n, Power2(j - 1));
    }
  }

  lemma HalveThenDivide(n: nat, m: nat)
    requires m >= 1
    ensures n / 2 / m == n / (2 * m)
  {
    var q, r := n / 2 / m, n / 2 % m;
    assert n == (2 * m) * q + (2 * r + n % 2) by {
      assert n == 2 * (q * m + r) + n % 2;
      assert 2 * (q * m + r) == (2 * m) * q + 2 * r;
    }
    DivisionIsUnique(n, 2 * m, q, 2 * r + n % 2);
  }

  lemma BitOfMessage(data: seq<Byte>, i: nat)
    requires i < 8 * |data|
    ensures MessageBits(data)[i] == (Bits(data)[i] == 1)
  {
    hide Bits, Digits, Power2;
    BitAt(data, i);
    DigitAt(data[i / 8], 8, i % 8);
  }

  // ---- The number in the register ----

  predicate DoublesTo(h: bv32) {
    (h << 1) as nat == 2 * (h as nat)
  }

  predicate DoublesToOdd(h: bv32) {
    ((h << 1) | 1) as nat == 2 * (h as nat) + 1
  }

  lemma NumberOfDouble(h: bv32)
    requires h < 0x8000_0000
    ensures DoublesTo(h)
  {
  }

  lemma NumberOfDoubleAndOne(h: bv32)
    requires h < 0x8000_0000
    ensures DoublesToOdd(h)
  {
  }

  lemma NumberOfEven(c: bv32)
    requires !Low(c)
    ensures c as nat == 2 * (Half(c) as nat)
  {
    NumberOfDouble(c >> 1);
  }

  lemma NumberOfOdd(c: bv32)
    requires Low(c)
    ensures c as nat == 2 * (Half(c) as nat) + 1
  {
    NumberOfDoubleAndOne(c >> 1);
  }

  function NumberIn(c: bv32): nat {
    c as nat
  }

  lemma NothingHigh(c: bv32)
    requires Outside(c, ALL_ONES)
    ensures NumberIn(c) == 0
  {
  }

  lemma NumberInHalf(c: bv32)
    ensures NumberIn(c) == 2 * NumberIn(Half(c)) + if Low(c) then 1 else 0
  {
    hide Low, Half;
    if Low(c) {
      NumberOfOdd(c);
    } else {
      NumberOfEven(c);
    }
  }

  lemma {:induction false} NumberOfPlaces(c: bv32, k: nat)
    requires Outside(c, High(k))
    ensures Number(Places(c, k)) == NumberIn(c)
    decreases k
  {
    hide Outside, Low, Half, Up, NumberIn;
    if k == 0 {
      NothingHigh(c);
    } else {
      HalfIsOutside(c, High(k - 1));
      NumberOfPlaces(Half(c), k - 1);
      NumberInHalf(c);
    }
  }

  lemma NothingAbove(c: bv32)
    ensures Outside(c, High(32))
  {
    HighestIsTop();
    assert High(32) == 0;
  }

  // ---- The checksum is the complement of a remainder ----

  function Complement(p: Polynomial): (r: Polynomial)
    ensures |r| == |p|
  {
    Plus(p, Ones(|p|))
  }

  lemma PlacesOfOnes()
    ensures Places(ALL_ONES, 32) == Ones(32)
  {
    hide Places;
    FourPlaces(0xF, 0, 0, true, true, true, true);
    FourPlaces(0xFF, 0xF, 4, true, true, true, true);
    FourPlaces(0xFFF, 0xFF, 8, true, true, true, true);
    FourPlaces(0xFFFF, 0xFFF, 12, true, true, true, true);
    FourPlaces(0xF_FFFF, 0xFFFF, 16, true, true, true, true);
    FourPlaces(0xFF_FFFF, 0xF_FFFF, 20, true, true, true, true);
    FourPlaces(0xFFF_FFFF, 0xFF_FFFF, 24, true, true, true, true);
    FourPlaces(ALL_ONES, 0xFFF_FFFF, 28, true, true, true, true);
  }

  /** The checksum of any data: long division of its bits by the generator, and the complement of what remains. */
  lemma ChecksumIsRemainder(data: seq<Byte>)
    ensures Checksum(data) == Number(Complement(Remainder(Dividend(data))))
  {
    hide Places, Number, Remainder, MessageBits;
    var w := MessageBits(data) + Zeros(32);
    forall i | 0 <= i < 8 * |data| ensures MessageBits(data)[i] == (Bits(data)[i] == 1) {
      BitOfMessage(data, i);
    }
    RunDivides(ALL_ONES, Bits(data), w);
    FoldIsRun(ALL_ONES, data);
    PlacesOfOnes();
    PlacesOfXor(Fold(ALL_ONES, data), ALL_ONES, 32);
    NothingAbove(Register(data));
    NumberOfPlaces(Register(data), 32);
  }
}
