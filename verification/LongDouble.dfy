/**
 Whole numbers as binary floating point values: rounding to the nearest value with a mantissa of a given
 number of bits, ties to even. The width of `long double` depends on the platform.
 */
module LongDouble {
  import opened Prelude

  /** The distance of neighbouring values at this magnitude, among whole numbers. */
  function Ulp(bits: nat, magnitude: nat): (ulp: nat)
    ensures ulp > 0
  {
    Pow2AtLeast(bits);
    if magnitude < Pow2(bits) then 1 else 2 * Ulp(bits, magnitude / 2)
  }

  function RoundedMagnitude(bits: nat, m: nat): int {
    var ulp := Ulp(bits, m);
    var rest := m % ulp;
    if 2 * rest > ulp || (2 * rest == ulp && m / ulp % 2 == 1) then m - rest + ulp else m - rest
  }

  function Rounded(bits: nat, x: int): int {
    if x >= 0 then RoundedMagnitude(bits, x) else -RoundedMagnitude(bits, -x)
  }

  /** A whole number is kept exactly when it is a multiple of the distance. */
  lemma RoundedIff(bits: nat, x: int)
    ensures Rounded(bits, x) == x <==> Max(x, -x) % Ulp(bits, Max(x, -x)) == 0
  {
  }

  /** Numbers with no more bits than the mantissa are kept. */
  lemma ShortIsKept(bits: nat, x: int)
    requires Max(x, -x) < Pow2(bits)
    ensures Rounded(bits, x) == x
  {
    RoundedIff(bits, x);
  }

  lemma DoubleMantissa()
    ensures Pow2(53) == 0x20_0000_0000_0000
  {
    assert Pow2(5) == 2 * Pow2(4) && Pow2(4) == 2 * Pow2(3) && Pow2(3) == 8;
    EightBits(5);
    EightBits(13);
    EightBits(21);
    EightBits(29);
    EightBits(37);
    EightBits(45);
  }

  lemma ExtendedMantissa()
    ensures Pow2(64) == TWO_64
  {
    assert Pow2(0) == 1;
    EightBits(0);
    EightBits(8);
    EightBits(16);
    EightBits(24);
    EightBits(32);
    EightBits(40);
    EightBits(48);
    EightBits(56);
  }

  /** A mantissa of 64 bits keeps every int64. */
  lemma ExtendedKeepsInt64(x: int64)
    ensures Rounded(64, x) == x
  {
    ExtendedMantissa();
    ShortIsKept(64, x);
  }

  lemma UlpOfNanoseconds()
    ensures Ulp(53, 1_700_000_000_123_000_000) == 256
  {
    var x := 1_700_000_000_123_000_000;
    DoubleMantissa();
    assert Ulp(53, x / 256) == 1;
    assert Ulp(53, x / 64) == 4;
    assert Ulp(53, x / 16) == 16;
    assert Ulp(53, x / 4) == 64;
  }

  /** A double has 53 bits: this product is off by 64. */
  lemma DoubleIsOff()
    ensures Rounded(53, 1_700_000_000_123 * NANOS_PER_MILLISECOND) == 1_700_000_000_123_000_064
  {
    UlpOfNanoseconds();
    assert 1_700_000_000_123_000_000 % 256 == 192;
  }
}
