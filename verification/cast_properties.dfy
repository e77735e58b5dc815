/** What the safe-cast matrix of `_dtypes.py` guarantees, stated over
    every `(source, target)` pair and every column. */
module CastProperties {
  import opened Wrappers
  import opened DTypes
  import opened Casts

  /** The helper an integer source ought to use for a numeric target, read
      off the two tags' bounds alone: no check when the target holds every
      source value; otherwise the upper bound for unsigned sources, the
      lower bound when only that can fail, and both bounds in general. */
  function BoundsHelper(from: DType, to: DType): Helper
    requires IsInteger(from) && IsNumeric(to)
  {
    if Within(from, to) then CheckedOnly
    else if IsUnsigned(from) then UpperBound
    else if Hi(from) <= Hi(to) then NonNegative
    else WithinRange
  }

  /** The hand-written dispatch of every integer class agrees, pair by pair,
      with the bounds-based classification. */
  lemma {:induction false} DispatchFollowsBounds(from: DType, to: DType)
    requires IsInteger(from) && IsNumeric(to) && from != to
    ensures HelperFor(from, to) == BoundsHelper(from, to)
  {
    if IsSigned(from) {
      SignedDispatchFollowsBounds(from, to);
    } else {
      UnsignedDispatchFollowsBounds(from, to);
    }
  }

  lemma {:induction false} SignedDispatchFollowsBounds(from: DType, to: DType)
    requires IsSigned(from) && IsNumeric(to) && from != to
    ensures HelperFor(from, to) == BoundsHelper(from, to)
  {
    match from
    case Int8 =>
    case Int16 =>
    case Int32 =>
    case Int64 =>
    case Int128 =>
  }

  lemma {:induction false} UnsignedDispatchFollowsBounds(from: DType, to: DType)
    requires IsUnsigned(from) && IsNumeric(to) && from != to
    ensures HelperFor(from, to) == BoundsHelper(from, to)
  {
    match from
    case UInt8 =>
    case UInt16 =>
    case UInt32 =>
    case UInt64 =>
    case UInt128 =>
  }

  /** A numeric class cast to itself: Int8 and Int16 go through the checked
      cast, Int32/Int64/Int128/UInt32/UInt64 return the column unchanged, and
      UInt8, UInt16, UInt128, Float32 and Float64 have no path. */
  lemma SameTypeHelper(t: DType)
    requires IsNumeric(t)
    ensures HelperFor(t, t) ==
      if t in {Int32, Int64, Int128, UInt32, UInt64} then KeepAsIs
      else if t in {Int8, Int16} then CheckedOnly
      else NoPath
  {
  }

  /** Every numeric class sends a Boolean target to the 0/1 test. */
  lemma ToBooleanHelper(from: DType)
    requires IsNumeric(from)
    ensures HelperFor(from, Boolean) == ZeroOrOne
  {
  }

  /** Float sources: Float32 -> Float64 is unconditional; Float64 -> Float32
      and every float -> integer cast go through the round-trip comparison. */
  lemma FloatSourceHelper(from: DType, to: DType)
    requires IsFloat(from)
    ensures IsInteger(to) ==> HelperFor(from, to) == RoundTrip
    ensures HelperFor(Float64, Float32) == RoundTrip
    ensures HelperFor(Float32, Float64) == CheckedOnly
  {
  }

  /** Non-numeric targets other than Boolean: only Int8, Int16 and Int32 reach
      String; everything else has no path. */
  lemma NonNumericTargetHelper(from: DType, to: DType)
    requires IsNumeric(from) && !IsNumeric(to) && to != Boolean
    ensures HelperFor(from, to) ==
      if to == String && from in {Int8, Int16, Int32} then CheckedOnly else NoPath
  {
    match from
    case Int8 =>
    case Int16 =>
    case Int32 =>
    case Int64 =>
    case Int128 =>
    case UInt8 =>
    case UInt16 =>
    case UInt32 =>
    case UInt64 =>
    case UInt128 =>
    case Float32 =>
    case Float64 =>
  }

  /** Classes without `_safe_cast` (Boolean, String, Date, ...). */
  lemma NonNumericSourceHelper(from: DType, s: Series, to: DType, cast: CastOutcome, nanEq: bool)
    requires !IsNumeric(from)
    ensures HelperFor(from, to) == NoMethod
    ensures SafeCast(from, s, to, cast, nanEq) == Err(NoSafeCast(from))
  {
  }

  /** The unconditional casts read no value of the column: identity returns
      it unchanged, and a checked-only pair is exactly the checked cast: it
      succeeds when the backend honours the requested dtype, returning the
      backend's series, and otherwise passes the backend's error on. */
  lemma UnconditionalCasts(from: DType, s: Series, to: DType, cast: CastOutcome, nanEq: bool)
    ensures HelperFor(from, to) == KeepAsIs ==> SafeCast(from, s, to, cast, nanEq) == Ok(s)
    ensures HelperFor(from, to) == CheckedOnly ==>
      (SafeCast(from, s, to, cast, nanEq).Ok? <==> cast.Produced? && cast.series.dtype == to)
    ensures HelperFor(from, to) == CheckedOnly ==> SafeCast(from, s, to, cast, nanEq) == CheckedCast(s, to, cast)
  {
    var helper := HelperFor(from, to);
    if helper == KeepAsIs || helper == CheckedOnly {
      assert SafeCast(from, s, to, cast, nanEq) == Dispatch(helper, from, s, to, cast, nanEq);
      UnconditionalDispatch(helper, from, s, to, cast, nanEq);
    }
  }

  lemma UnconditionalDispatch(helper: Helper, from: DType, s: Series, to: DType, cast: CastOutcome, nanEq: bool)
    requires helper == KeepAsIs || helper == CheckedOnly
    ensures helper == KeepAsIs ==> Dispatch(helper, from, s, to, cast, nanEq) == Ok(s)
    ensures helper == CheckedOnly ==> Dispatch(helper, from, s, to, cast, nanEq) == CheckedCast(s, to, cast)
  {
  }

  /** Signed -> unsigned of at least the same width: succeeds iff the column
      minimum is at least 0, and otherwise reports that minimum. */
  lemma SignedToUnsignedCast(from: DType, s: Series, to: DType, cast: CastOutcome, nanEq: bool)
    requires IsSigned(from) && IsUnsigned(to) && Width(from) <= Width(to)
    ensures var r := SafeCast(from, s, to, cast, nanEq);
      && (r.Ok? <==> HasNumber(s.values) && AllAtLeast(s.values, 0.0) && CheckedCast(s, to, cast).Ok?)
      && (HasNumber(s.values) && !AllAtLeast(s.values, 0.0) ==>
            r.Err? && r.error.MinBelowZero? && r.error.actualMin < 0.0 && Num(r.error.actualMin) in s.values)
  {
    DispatchFollowsBounds(from, to);
    NonNegativeDispatch(HelperFor(from, to), from, s, to, cast, nanEq);
  }

  lemma NonNegativeDispatch(helper: Helper, from: DType, s: Series, to: DType, cast: CastOutcome, nanEq: bool)
    requires helper == NonNegative
    ensures var r := Dispatch(helper, from, s, to, cast, nanEq);
      && (r.Ok? <==> HasNumber(s.values) && AllAtLeast(s.values, 0.0) && CheckedCast(s, to, cast).Ok?)
      && (HasNumber(s.values) && !AllAtLeast(s.values, 0.0) ==>
            r.Err? && r.error.MinBelowZero? && r.error.actualMin < 0.0 && Num(r.error.actualMin) in s.values)
  {
  }

  /** Signed sources narrowing below their range: succeeds iff
      `min >= to._min` and `max <= to._max`, and otherwise reports both the
      observed and the allowed range. */
  lemma SignedNarrowingCast(from: DType, s: Series, to: DType, cast: CastOutcome, nanEq: bool)
    requires IsSigned(from) && IsNumeric(to) && Hi(from) > Hi(to)
    ensures var r := SafeCast(from, s, to, cast, nanEq);
      && (r.Ok? <==> HasNumber(s.values) && InBounds(s.values, to) && CheckedCast(s, to, cast).Ok?)
      && (HasNumber(s.values) && !InBounds(s.values, to) ==>
            r.Err? && r.error == OutOfRange(MinOf(s.values).value, MaxOf(s.values).value, Lo(to), Hi(to)))
  {
    DispatchFollowsBounds(from, to);
    WithinRangeDispatch(HelperFor(from, to), from, s, to, cast, nanEq);
  }

  lemma WithinRangeDispatch(helper: Helper, from: DType, s: Series, to: DType, cast: CastOutcome, nanEq: bool)
    requires helper == WithinRange && IsNumeric(to)
    ensures var r := Dispatch(helper, from, s, to, cast, nanEq);
      && (r.Ok? <==> HasNumber(s.values) && InBounds(s.values, to) && CheckedCast(s, to, cast).Ok?)
      && (HasNumber(s.values) && !InBounds(s.values, to) ==>
            r.Err? && r.error == OutOfRange(MinOf(s.values).value, MaxOf(s.values).value, Lo(to), Hi(to)))
  {
  }

  /** Unsigned sources narrowing: only the upper bound is checked, which
      suffices because no target's `_min` exceeds an unsigned column's 0. */
  lemma UnsignedNarrowingCast(from: DType, s: Series, to: DType, cast: CastOutcome, nanEq: bool)
    requires IsUnsigned(from) && IsNumeric(to) && !Within(from, to)
    ensures Lo(to) <= Lo(from)
    ensures var r := SafeCast(from, s, to, cast, nanEq);
      && (r.Ok? <==> HasNumber(s.values) && AllAtMost(s.values, Hi(to) as real) && CheckedCast(s, to, cast).Ok?)
      && (HasNumber(s.values) && !AllAtMost(s.values, Hi(to) as real) ==>
            r.Err? && r.error == MaxAbove(MaxOf(s.values).value, Hi(to)))
  {
    DispatchFollowsBounds(from, to);
    UpperBoundDispatch(HelperFor(from, to), from, s, to, cast, nanEq);
  }

  lemma UpperBoundDispatch(helper: Helper, from: DType, s: Series, to: DType, cast: CastOutcome, nanEq: bool)
    requires helper == UpperBound && IsNumeric(to)
    ensures var r := Dispatch(helper, from, s, to, cast, nanEq);
      && (r.Ok? <==> HasNumber(s.values) && AllAtMost(s.values, Hi(to) as real) && CheckedCast(s, to, cast).Ok?)
      && (HasNumber(s.values) && !AllAtMost(s.values, Hi(to) as real) ==>
            r.Err? && r.error == MaxAbove(MaxOf(s.values).value, Hi(to)))
  {
  }

  /** Safety of the integer casts: when a column holds only values of its
      source class and the safe cast to a numeric class succeeds, every one
      of its values is a value of the target class. */
  lemma {:induction false} SafeCastStaysInBounds(from: DType, s: Series, to: DType, cast: CastOutcome, nanEq: bool)
    requires IsInteger(from) && IsNumeric(to)
    requires InBounds(s.values, from)
    requires SafeCast(from, s, to, cast, nanEq).Ok?
    ensures InBounds(s.values, to)
  {
    if from == to {
      SameTypeHelper(from);
    } else {
      DispatchFollowsBounds(from, to);
      BoundsHelperStaysInBounds(HelperFor(from, to), from, s, to, cast, nanEq);
    }
  }

  lemma {:induction false} BoundsHelperStaysInBounds(helper: Helper, from: DType, s: Series, to: DType, cast: CastOutcome, nanEq: bool)
    requires IsInteger(from) && IsNumeric(to) && from != to
    requires helper == BoundsHelper(from, to)
    requires InBounds(s.values, from)
    requires Dispatch(helper, from, s, to, cast, nanEq).Ok?
    ensures InBounds(s.values, to)
  {
    var vs := s.values;
    match helper
    case CheckedOnly =>
      assert Within(from, to);
    case UpperBound =>
      assert AllowedMaxCast(s, to, cast).Ok?;
      assert AllAtLeast(vs, Lo(to) as real) by {
        assert Lo(to) <= 0 == Lo(from);
      }
    case NonNegative =>
      assert IntToUIntCast(s, to, cast).Ok?;
      assert AllAtMost(vs, Hi(to) as real) by {
        assert Hi(from) <= Hi(to);
      }
    case WithinRange =>
      assert AllowedRangeCast(s, to, cast).Ok?;
  }

  /** Any numeric -> Boolean cast succeeds iff every non-null value is 0 or 1. */
  lemma ToBooleanCast(from: DType, s: Series, cast: CastOutcome, nanEq: bool)
    requires IsNumeric(from)
    ensures var r := SafeCast(from, s, Boolean, cast, nanEq);
      && (r.Ok? <==> AllZeroOne(s.values) && CheckedCast(s, Boolean, cast).Ok?)
      && (!AllZeroOne(s.values) ==> r == Err(NotZeroOne))
  {
    ToBooleanHelper(from);
    assert SafeCast(from, s, Boolean, cast, nanEq) == NumericToBooleanCast(s, Boolean, cast, nanEq);
  }

  /** Float -> integer and Float64 -> Float32 keep a cast only when it
      round-trips: every non-null result equals its non-null original. A
      `TypeError` from the checked cast propagates unchanged and any other
      backend failure becomes "casting resulted in different series"; a
      cast of the requested dtype is kept when it round-trips and is
      rejected as a different series when it does not. */
  lemma FloatNarrowingCast(from: DType, s: Series, to: DType, cast: CastOutcome, nanEq: bool)
    requires IsFloat(from) && (IsInteger(to) || (from == Float64 && to == Float32))
    ensures var r := SafeCast(from, s, to, cast, nanEq);
      && (r.Ok? ==> cast.Produced? && r.value == cast.series && RoundTrips(s.values, cast.series.values, nanEq))
      && (cast.Raised? ==>
            r == Err(if cast.error == BackendTypeError then Backend(BackendTypeError) else DifferentSeries))
      && (cast.Produced? && cast.series.dtype != to ==> r == Err(Unsupported(s.dtype, to)))
      && (cast.Produced? && cast.series.dtype == to && RoundTrips(s.values, cast.series.values, nanEq) ==>
            r == Ok(cast.series))
      && ((cast.Produced? && cast.series.dtype == to && |cast.series.values| == |s.values|
            && !RoundTrips(s.values, cast.series.values, nanEq)) ==> r == Err(DifferentSeries))
  {
    FloatSourceHelper(from, to);
    RoundTripDispatch(HelperFor(from, to), from, s, to, cast, nanEq);
  }

  lemma RoundTripDispatch(helper: Helper, from: DType, s: Series, to: DType, cast: CastOutcome, nanEq: bool)
    requires helper == RoundTrip
    ensures var r := Dispatch(helper, from, s, to, cast, nanEq);
      && (r.Ok? ==> cast.Produced? && r.value == cast.series && RoundTrips(s.values, cast.series.values, nanEq))
      && (cast.Raised? ==>
            r == Err(if cast.error == BackendTypeError then Backend(BackendTypeError) else DifferentSeries))
      && (cast.Produced? && cast.series.dtype != to ==> r == Err(Unsupported(s.dtype, to)))
      && (cast.Produced? && cast.series.dtype == to && RoundTrips(s.values, cast.series.values, nanEq) ==>
            r == Ok(cast.series))
      && ((cast.Produced? && cast.series.dtype == to && |cast.series.values| == |s.values|
            && !RoundTrips(s.values, cast.series.values, nanEq)) ==> r == Err(DifferentSeries))
  {
  }

  /** On a backend where NaN compares unequal to everything, a NaN anywhere
      rejects a float narrowing whose cast gives a value at that position. */
  lemma {:induction false} NaNRejectsFloatNarrowing(from: DType, s: Series, to: DType, cast: CastOutcome, nanEq: bool, i: nat)
    requires IsFloat(from) && (IsInteger(to) || (from == Float64 && to == Float32))
    requires i < |s.values| && s.values[i] == NaN
    requires cast.Produced? && i < |cast.series.values| && cast.series.values[i] != Null
    requires !nanEq
    ensures SafeCast(from, s, to, cast, nanEq).Err?
  {
    FloatNarrowingCast(from, s, to, cast, nanEq);
  }

  /** The column [1.0, 2.0, 3.0, null, NaN] narrowed to Float32 by a backend
      that keeps every value: kept where NaN equals NaN (Polars), rejected
      as a different series where it does not. */
  lemma NaNSurvivesWhereNaNEqualsNaN(nanEq: bool)
    ensures var s := Series(Float64, [Num(1.0), Num(2.0), Num(3.0), Null, NaN]);
      var c := Series(Float32, s.values);
      SafeCast(Float64, s, Float32, Produced(c), nanEq) == (if nanEq then Ok(c) else Err(DifferentSeries))
  {
    var s := Series(Float64, [Num(1.0), Num(2.0), Num(3.0), Null, NaN]);
    var c := Series(Float32, s.values);
    FloatNarrowingCast(Float64, s, Float32, Produced(c), nanEq);
    assert s.values[4] == NaN;
    assert RoundTrips(s.values, c.values, nanEq) <==> nanEq;
  }

  /** A cast the backend performs but returns under another dtype is an
      error on every path that casts at all. */
  lemma {:induction false} DtypeMismatchIsAnError(from: DType, s: Series, to: DType, cast: CastOutcome, nanEq: bool)
    requires HelperFor(from, to) !in {KeepAsIs, NoPath, NoMethod}
    requires cast.Produced? && cast.series.dtype != to
    ensures SafeCast(from, s, to, cast, nanEq).Err?
  {
    BoundedHelpersHaveNumericTargets(from, to);
    DispatchNeedsCheckedCast(HelperFor(from, to), from, s, to, cast, nanEq);
  }

  /** Every helper that casts fails when the checked cast does. */
  lemma DispatchNeedsCheckedCast(helper: Helper, from: DType, s: Series, to: DType, cast: CastOutcome, nanEq: bool)
    requires helper !in {KeepAsIs, NoPath, NoMethod}
    requires helper in {UpperBound, WithinRange} ==> IsNumeric(to)
    requires CheckedCast(s, to, cast).Err?
    ensures Dispatch(helper, from, s, to, cast, nanEq).Err?
  {
  }

  /** Float64 -> UInt128 on a backend without UInt128: the column comes back
      as Float64 and the cast is rejected as unsupported. */
  lemma Float64ToUInt128WithoutBackendSupport(vs: seq<Value>, nanEq: bool)
    ensures var s := Series(Float64, vs);
      SafeCast(Float64, s, UInt128, Produced(s), nanEq) == Err(Unsupported(Float64, UInt128))
  {
  }

  /** The column [1.0, 2.0, 3.0, null] casts to Int8 when the backend gives
      back the same values; with 3.14 in it, a backend that truncates to 3
      makes the cast fail. */
  lemma WholeFloatsCastAndFractionsDoNot(nanEq: bool)
    ensures var s := Series(Float64, [Num(1.0), Num(2.0), Num(3.0), Null]);
      var c := Series(Int8, [Num(1.0), Num(2.0), Num(3.0), Null]);
      SafeCast(Float64, s, Int8, Produced(c), nanEq) == Ok(c)
    ensures var s := Series(Float64, [Num(1.0), Num(2.0), Num(3.14)]);
      var c := Series(Int8, [Num(1.0), Num(2.0), Num(3.0)]);
      SafeCast(Float64, s, Int8, Produced(c), nanEq) == Err(DifferentSeries)
  {
    var s := Series(Float64, [Num(1.0), Num(2.0), Num(3.0), Null]);
    var c := Series(Int8, [Num(1.0), Num(2.0), Num(3.0), Null]);
    FloatNarrowingCast(Float64, s, Int8, Produced(c), nanEq);
    assert RoundTrips(s.values, c.values, nanEq);
    var s' := Series(Float64, [Num(1.0), Num(2.0), Num(3.14)]);
    var c' := Series(Int8, [Num(1.0), Num(2.0), Num(3.0)]);
    FloatNarrowingCast(Float64, s', Int8, Produced(c'), nanEq);
    assert s'.values[2] != c'.values[2];
  }

  /** As written, `Int128._safe_cast` fails on the membership test for every
      target past Int128 and Boolean, even for a column the intended range
      cast accepts. */
  lemma Int128AsWrittenRejectsNarrowing(nanEq: bool)
    ensures var s := Series(Int128, [Num(5.0)]);
      var c := Series(Int64, [Num(5.0)]);
      && SafeCastAsWritten(Int128, s, Int64, Produced(c), nanEq) == Err(NotIterable)
      && SafeCast(Int128, s, Int64, Produced(c), nanEq) == Ok(c)
  {
    var s := Series(Int128, [Num(5.0)]);
    assert MinOf(s.values) == Some(5.0);
    assert MaxOf(s.values) == Some(5.0);
  }

  /** With the membership test read as `to in {UInt128}`, Int128 casts
      follow the same rules as the other signed classes. */
  lemma Int128Corrected(s: Series, to: DType, cast: CastOutcome, nanEq: bool)
    requires IsNumeric(to) && to != Int128
    ensures HelperFor(Int128, to) == (if to == UInt128 then NonNegative else WithinRange)
    ensures InBounds(s.values, Int128) && SafeCast(Int128, s, to, cast, nanEq).Ok? ==> InBounds(s.values, to)
  {
    DispatchFollowsBounds(Int128, to);
    if InBounds(s.values, Int128) && SafeCast(Int128, s, to, cast, nanEq).Ok? {
      SafeCastStaysInBounds(Int128, s, to, cast, nanEq);
    }
  }
}
