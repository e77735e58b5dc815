/** The dtype tags of `_dtypes.py` and the fixed inclusive bounds that every
    integer and float class carries as its `_min` / `_max` attributes. */
module DTypes {

  /** One tag per dtype class. `Datetime`, `Duration`, `Array`, `List` and
      `Struct` carry no parameters here: the model compares dtypes by tag. */
  datatype DType =
    | Int8 | Int16 | Int32 | Int64 | Int128
    | UInt8 | UInt16 | UInt32 | UInt64 | UInt128
    | Float32 | Float64
    | Decimal | Binary | Boolean | Categorical | Date | Datetime | Duration
    | String | Object | Unknown | Array | List | Struct

  predicate IsSigned(t: DType) {
    t.Int8? || t.Int16? || t.Int32? || t.Int64? || t.Int128?
  }

  predicate IsUnsigned(t: DType) {
    t.UInt8? || t.UInt16? || t.UInt32? || t.UInt64? || t.UInt128?
  }

  predicate IsInteger(t: DType) {
    IsSigned(t) || IsUnsigned(t)
  }

  predicate IsFloat(t: DType) {
    t.Float32? || t.Float64?
  }

  /** The classes that define `_min`, `_max` and `_safe_cast`. */
  predicate IsNumeric(t: DType) {
    IsInteger(t) || IsFloat(t)
  }

  /** Bit width of a numeric tag. */
  function Width(t: DType): (w: nat)
    requires IsNumeric(t)
    ensures w in {8, 16, 32, 64, 128}
  {
    match t
    case Int8 => 8
    case Int16 => 16
    case Int32 => 32
    case Int64 => 64
    case Int128 => 128
    case UInt8 => 8
    case UInt16 => 16
    case UInt32 => 32
    case UInt64 => 64
    case UInt128 => 128
    case Float32 => 32
    case Float64 => 64
  }

  function Pow2(n: nat): (r: int)
    ensures r >= 1
  {
    if n == 0 then 1 else 2 * Pow2(n - 1)
  }

  /** The `_min` attribute: the least value the tag holds (for floats, the
      least integer it represents without loss of precision). */
  function Lo(t: DType): (lo: int)
    requires IsNumeric(t)
    ensures lo <= 0
    ensures lo == 0 <==> IsUnsigned(t)
  {
    match t
    case Int8 => -128
    case Int16 => -32_768
    case Int32 => -2_147_483_648
    case Int64 => -9_223_372_036_854_775_808
    case Int128 => -170141183460469231731687303715884105728
    case UInt8 => 0
    case UInt16 => 0
    case UInt32 => 0
    case UInt64 => 0
    case UInt128 => 0
    case Float32 => -16_777_216
    case Float64 => -9_007_199_254_740_991
  }

  /** The `_max` attribute. */
  function Hi(t: DType): (hi: int)
    requires IsNumeric(t)
    ensures hi > 0
  {
    match t
    case Int8 => 127
    case Int16 => 32_767
    case Int32 => 2_147_483_647
    case Int64 => 9_223_372_036_854_775_807
    case Int128 => 170141183460469231731687303715884105727
    case UInt8 => 255
    case UInt16 => 65_535
    case UInt32 => 4_294_967_295
    case UInt64 => 18446744073709551615
    case UInt128 => 340_282_366_920_938_463_463_374_607_431_768_211_455
    case Float32 => 16_777_216
    case Float64 => 9_007_199_254_740_991
  }

  /** Every value of `a` is a value of `b`. */
  predicate Within(a: DType, b: DType)
    requires IsNumeric(a) && IsNumeric(b)
  {
    Lo(b) <= Lo(a) && Hi(a) <= Hi(b)
  }

  lemma {:induction false} Pow2Add(a: nat, b: nat)
    ensures Pow2(a + b) == Pow2(a) * Pow2(b)
  {
    if a > 0 {
      Pow2Add(a - 1, b);
    }
  }

  lemma Pow2Small()
    ensures Pow2(7) == 128 && Pow2(8) == 256
    ensures Pow2(15) == 32_768 && Pow2(16) == 65_536
    ensures Pow2(24) == 16_777_216
  {
    assert Pow2(4) == 16;
    Pow2Add(4, 3);
    Pow2Add(4, 4);
    Pow2Add(8, 7);
    Pow2Add(8, 8);
    Pow2Add(16, 8);
  }

  lemma Pow2Middle()
    ensures Pow2(31) == 2_147_483_648 && Pow2(32) == 4_294_967_296
    ensures Pow2(53) == 9_007_199_254_740_992
  {
    Pow2Small();
    Pow2Add(16, 15);
    Pow2Add(16, 16);
    assert Pow2(5) == 32;
    Pow2Add(16, 5);
    Pow2Add(32, 21);
  }

  lemma Pow2Large()
    ensures Pow2(63) == 9_223_372_036_854_775_808 && Pow2(64) == 18446744073709551616
    ensures Pow2(127) == 170141183460469231731687303715884105728
    ensures Pow2(128) == 340282366920938463463374607431768211456
  {
    Pow2Middle();
    Pow2Add(32, 31);
    Pow2Add(32, 32);
    Pow2Add(64, 63);
    Pow2Add(64, 64);
  }

  /** Int_n holds exactly [-2^(n-1), 2^(n-1) - 1]. */
  lemma SignedBounds(t: DType)
    requires IsSigned(t)
    ensures Lo(t) == -Pow2(Width(t) - 1) && Hi(t) == Pow2(Width(t) - 1) - 1
  {
    Pow2Small();
    Pow2Middle();
    Pow2Large();
  }

  /** UInt_n holds exactly [0, 2^n - 1]. */
  lemma UnsignedBounds(t: DType)
    requires IsUnsigned(t)
    ensures Lo(t) == 0 && Hi(t) == Pow2(Width(t)) - 1
  {
    Pow2Small();
    Pow2Middle();
    Pow2Large();
  }

  /** Float32's bounds are +-2^24; Float64's are +-(2^53 - 1), one short of
      the largest exactly representable power of two. */
  lemma FloatBounds()
    ensures Lo(Float32) == -Pow2(24) && Hi(Float32) == Pow2(24)
    ensures Lo(Float64) == -(Pow2(53) - 1) && Hi(Float64) == Pow2(53) - 1
  {
    Pow2Middle();
  }

  /** Integer tags of the same signedness nest by width. */
  lemma IntegersNestByWidth(a: DType, b: DType)
    requires (IsSigned(a) && IsSigned(b)) || (IsUnsigned(a) && IsUnsigned(b))
    ensures Within(a, b) <==> Width(a) <= Width(b)
  {
  }
}
