/** Checksums worked out step by step. They tell this CRC from others without naming its constant. */
module KnownAnswers {
  import opened Bytes
  import opened Crc
  import opened Division

  lemma PushedPlaces(e: Bit, rest: bv32)
    requires Outside(rest, TOP_BIT)
    ensures Low(Push(e, rest)) == (e == 1) && Half(Push(e, rest)) == rest
  {
  }

  lemma {:induction false} WordIsNumber(n: nat, k: nat)
    requires n < Power2(k) && k <= 32
    ensures NumberIn(Word(Digits(n, k))) == n
    decreases k
  {
    hide Outside, Low, Half, Push, NumberIn, High;
    if k == 0 {
      NothingHigh(0);
    } else {
      var rest := Word(Digits(n / 2, k - 1));
      WordIsNumber(n / 2, k - 1);
      WordIsLow(Digits(n / 2, k - 1));
      HighTop(k - 1);
      OutsideTop(rest, High(k - 1));
      PushedPlaces(Digits(n, k)[0], rest);
      assert Digits(n, k)[1..] == Digits(n / 2, k - 1);
      NumberInHalf(Word(Digits(n, k)));
    }
  }

  lemma WordOfByte(b: Byte)
    ensures Word(Digits(b, 8)) == b as bv32
  {
    assert Power2(8) == 256;
    WordIsNumber(b, 8);
    RegisterRoundTrip(Word(Digits(b, 8)));
  }

  lemma EightShifts(x: seq<bv32>)
    requires |x| == 9 && forall i | 0 <= i < 8 :: Shift(x[i]) == x[i + 1]
    ensures Shifts(x[0], 8) == x[8]
  {
    hide Shift;
    assert Shifts(x[0], 8) == Shifts(x[1], 7) == Shifts(x[2], 6) == Shifts(x[3], 5) == Shifts(x[4], 4);
    assert Shifts(x[4], 4) == Shifts(x[5], 3) == Shifts(x[6], 2) == Shifts(x[7], 1) == Shifts(x[8], 0);
  }

  lemma ByteStepIs(c: bv32, b: Byte, x: seq<bv32>)
    requires |x| == 9 && forall i | 0 <= i < 8 :: Shift(x[i]) == x[i + 1]
    requires x[0] == Xor(c, b as bv32)
    ensures ByteStep(c, b) == x[8]
  {
    hide Shift, Digits, Word, Shifts;
    WordOfByte(b);
    EightShifts(x);
  }

  /** The checksum of a single zero byte. */
  lemma ChecksumOfZero()
    ensures Checksum([0]) == 0xD202_EF8D
  {
    hide ByteStep;
    ByteStepIs(0xFFFF_FFFF, 0x00, [0xFFFF_FFFF, 0x9247_7CDF, 0xA49B_3D4F, 0xBFF5_1D87, 0xB242_0DE3, 0xB499_85D1,
                                     0xB7F4_41C8, 0x5BFA_20E4, 0x2DFD_1072]);
    assert Fold(0xFFFF_FFFF, [0]) == 0x2DFD_1072;
    assert Register([0]) == 0xD202_EF8D;
  }

  lemma {:induction false} FoldAppend(c: bv32, a: seq<Byte>, b: seq<Byte>)
    ensures Fold(c, a + b) == Fold(Fold(c, a), b)
    decreases |a|
  {
    hide ByteStep;
    if a == [] {
      assert a + b == b;
    } else {
      assert (a + b)[1..] == a[1..] + b;
      FoldAppend(ByteStep(c, a[0]), a[1..], b);
    }
  }

  lemma FoldOneToThree()
    ensures Fold(0xFFFF_FFFF, [0x31, 0x32, 0x33]) == 0x77B7_9C2D
  {
    hide ByteStep;
    ByteStepIs(0xFFFF_FFFF, 0x31, [0xFFFF_FFCE, 0x7FFF_FFE7, 0xD247_7CD3, 0x849B_3D49, 0xAFF5_1D84, 0x57FA_8EC2,
                                     0x2BFD_4761, 0xF846_2090, 0x7C23_1048]);
    ByteStepIs(0x7C23_1048, 0x32, [0x7C23_107A, 0x3E11_883D, 0xF2B0_473E, 0x7958_239F, 0xD114_92EF, 0x8532_CA57,
                                     0xAF21_E60B, 0xBA28_7025, 0xB0AC_BB32]);
    ByteStepIs(0xB0AC_BB32, 0x33, [0xB0AC_BB01, 0xB5EE_DEA0, 0x5AF7_6F50, 0x2D7B_B7A8, 0x16BD_DBD4, 0x0B5E_EDEA,
                                     0x05AF_76F5, 0xEF6F_385A, 0x77B7_9C2D]);
  }

  lemma FoldFourToSix()
    ensures Fold(0x77B7_9C2D, [0x34, 0x35, 0x36]) == 0xF68D_2C9E
  {
    hide ByteStep;
    ByteStepIs(0x77B7_9C2D, 0x34, [0x77B7_9C19, 0xD663_4D2C, 0x6B31_A696, 0x3598_D34B, 0xF774_EA85, 0x9602_F662,
                                     0x4B01_7B31, 0xC838_3EB8, 0x641C_1F5C]);
    ByteStepIs(0x641C_1F5C, 0x35, [0x641C_1F69, 0xDFB6_8C94, 0x6FDB_464A, 0x37ED_A325, 0xF64E_52B2, 0x7B27_2959,
                                     0xD02B_178C, 0x6815_8BC6, 0x340A_C5E3]);
    ByteStepIs(0x340A_C5E3, 0x36, [0x340A_C5D5, 0xF7BD_E1CA, 0x7BDE_F0E5, 0xD057_FB52, 0x682B_FDA9, 0xD9AD_7DF4,
                                     0x6CD6_BEFA, 0x366B_5F7D, 0xF68D_2C9E]);
  }

  lemma FoldSevenToNine()
    ensures Fold(0xF68D_2C9E, [0x37, 0x38, 0x39]) == 0x340B_C6D9
  {
    hide ByteStep;
    ByteStepIs(0xF68D_2C9E, 0x37, [0xF68D_2CA9, 0x96FE_1574, 0x4B7F_0ABA, 0x25BF_855D, 0xFF67_418E, 0x7FB3_A0C7,
                                     0xD261_5343, 0x8488_2A81, 0xAFFC_9660]);
    ByteStepIs(0xAFFC_9660, 0x38, [0xAFFC_9658, 0x57FE_4B2C, 0x2BFF_2596, 0x15FF_92CB, 0xE747_4A45, 0x9E1B_2602,
                                     0x4F0D_9301, 0xCA3E_4AA0, 0x651F_2550]);
    ByteStepIs(0x651F_2550, 0x39, [0x651F_2569, 0xDF37_1194, 0x6F9B_88CA, 0x37CD_C465, 0xF65E_6112, 0x7B2F_3089,
                                     0xD02F_1B64, 0x6817_8DB2, 0x340B_C6D9]);
  }

  /** The checksum of the nine characters 1 to 9, by which catalogues of CRCs tell them apart. */
  lemma ChecksumOfNineDigits()
    ensures Checksum([0x31, 0x32, 0x33, 0x34, 0x35, 0x36, 0x37, 0x38, 0x39]) == 0xCBF4_3926
  {
    hide Fold;
    var a, b, c := [0x31, 0x32, 0x33], [0x34, 0x35, 0x36], [0x37, 0x38, 0x39];
    FoldAppend(ALL_ONES, a, b + c);
    FoldAppend(0x77B7_9C2D, b, c);
    FoldOneToThree();
    FoldFourToSix();
    FoldSevenToNine();
    assert a + (b + c) == [0x31, 0x32, 0x33, 0x34, 0x35, 0x36, 0x37, 0x38, 0x39];
    assert Register(a + (b + c)) == 0xCBF4_3926;
  }
}
