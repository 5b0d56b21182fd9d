/** The published check value of CRC-32, and its generator by exponents
    (section 8 of RFC 1952, crates/oq-data/src/ticks.rs). */
module CrcCheck {
  import opened Bytes
  import opened Crc

  /** A term of the generator, in reflected order: the power of x stands at bit 31 - n. */
  function Term(n: nat): bv32
    requires n < 32
  {
    (1 as bv32) << (31 - n)
  }

  /** x^32 + x^26 + x^23 + x^22 + x^16 + x^12 + x^11 + x^10 + x^8 + x^7 + x^5 + x^4 + x^2 + x + 1. */
  lemma GeneratorTerms()
    ensures POLYNOMIAL == Term(26) | Term(23) | Term(22) | Term(16) | Term(12) | Term(11) | Term(10) | Term(8)
                        | Term(7) | Term(5) | Term(4) | Term(2) | Term(1) | Term(0)
  {
  }

  lemma EightSteps(c: bv32)
    ensures EightBits(c) == Shifted(Shifted(Shifted(Shifted(Shifted(Shifted(Shifted(Shifted(c))))))))
  {
    var d := Shifted(Shifted(Shifted(Shifted(c))));
    assert Iterate(Shifted, d, 4) == Shifted(Shifted(Shifted(Shifted(d))));
    assert Iterate(Shifted, c, 8) == Iterate(Shifted, d, 4);
  }

  lemma Digit1()
    ensures Absorb(0xFFFFFFFF, 49) == 0x7C231048
  {
    EightSteps(Xor(0xFFFFFFFF, Wide(49)));
  }

  lemma Digit2()
    ensures Absorb(0x7C231048, 50) == 0xB0ACBB32
  {
    EightSteps(Xor(0x7C231048, Wide(50)));
  }

  lemma Digit3()
    ensures Absorb(0xB0ACBB32, 51) == 0x77B79C2D
  {
    EightSteps(Xor(0xB0ACBB32, Wide(51)));
  }

  lemma Digit4()
    ensures Absorb(0x77B79C2D, 52) == 0x641C1F5C
  {
    EightSteps(Xor(0x77B79C2D, Wide(52)));
  }

  lemma Digit5()
    ensures Absorb(0x641C1F5C, 53) == 0x340AC5E3
  {
    EightSteps(Xor(0x641C1F5C, Wide(53)));
  }

  lemma Digit6()
    ensures Absorb(0x340AC5E3, 54) == 0xF68D2C9E
  {
    EightSteps(Xor(0x340AC5E3, Wide(54)));
  }

  lemma Digit7()
    ensures Absorb(0xF68D2C9E, 55) == 0xAFFC9660
  {
    EightSteps(Xor(0xF68D2C9E, Wide(55)));
  }

  lemma Digit8()
    ensures Absorb(0xAFFC9660, 56) == 0x651F2550
  {
    EightSteps(Xor(0xAFFC9660, Wide(56)));
  }

  lemma Digit9()
    ensures Absorb(0x651F2550, 57) == 0x340BC6D9
  {
    EightSteps(Xor(0x651F2550, Wide(57)));
  }

  lemma Fed(c: bv32, data: seq<Byte>, b: Byte, d: bv32, e: bv32)
    requires Digest(c, data) == d && Absorb(d, b) == e
    ensures Digest(c, data + [b]) == e
  {
    assert (data + [b])[..|data|] == data;
  }

  lemma FirstFive()
    ensures Digest(ALL_ONES, [] + [49] + [50] + [51] + [52] + [53]) == 0x340AC5E3
  {
    Digit1();
    Fed(ALL_ONES, [], 49, 0xFFFFFFFF, 0x7C231048);
    Digit2();
    Fed(ALL_ONES, [] + [49], 50, 0x7C231048, 0xB0ACBB32);
    Digit3();
    Fed(ALL_ONES, [] + [49] + [50], 51, 0xB0ACBB32, 0x77B79C2D);
    Digit4();
    Fed(ALL_ONES, [] + [49] + [50] + [51], 52, 0x77B79C2D, 0x641C1F5C);
    Digit5();
    Fed(ALL_ONES, [] + [49] + [50] + [51] + [52], 53, 0x641C1F5C, 0x340AC5E3);
  }

  lemma LastFour(data: seq<Byte>)
    requires Digest(ALL_ONES, data) == 0x340AC5E3
    ensures Digest(ALL_ONES, data + [54] + [55] + [56] + [57]) == 0x340BC6D9
  {
    Digit6();
    Fed(ALL_ONES, data, 54, 0x340AC5E3, 0xF68D2C9E);
    Digit7();
    Fed(ALL_ONES, data + [54], 55, 0xF68D2C9E, 0xAFFC9660);
    Digit8();
    Fed(ALL_ONES, data + [54] + [55], 56, 0xAFFC9660, 0x651F2550);
    Digit9();
    Fed(ALL_ONES, data + [54] + [55] + [56], 57, 0x651F2550, 0x340BC6D9);
  }

  lemma Inverted()
    ensures Number(Xor(0x340BC6D9, ALL_ONES)) == 0xCBF4_3926
  {
    assert Xor(0x340BC6D9, ALL_ONES) == 0xCBF4_3926;
  }

  /** The nine digits "123456789" have the check value CBF43926. */
  lemma CheckValue()
    ensures Sum([49, 50, 51, 52, 53, 54, 55, 56, 57]) == 0xCBF4_3926
  {
    var front := [] + [49] + [50] + [51] + [52] + [53];
    FirstFive();
    LastFour(front);
    Inverted();
    assert front + [54] + [55] + [56] + [57] == [49, 50, 51, 52, 53, 54, 55, 56, 57];
    SumIs([49, 50, 51, 52, 53, 54, 55, 56, 57]);
  }
}
