/** The safe-cast matrix of `_dtypes.py`: the cast helpers and the
    `_safe_cast` dispatch of every integer and float class.

    A column is a `Series` of abstract values. What the backend does is a
    parameter: `CastOutcome` is what `s.cast(...)` produced (a series with the
    dtype the backend actually chose) or the exception it raised, and
    `nanEq` says whether the backend's element-wise `==` holds between two
    NaNs (as in Polars) or not (as in IEEE 754). A comparison with a null is
    null, `|` is three-valued, and `.all()` skips nulls. */
module Casts {
  import opened Wrappers
  import opened DTypes

  datatype Value = Num(r: real) | Inf(negative: bool) | NaN | Null

  datatype Series = Series(dtype: DType, values: seq<Value>)

  /** An exception raised by the backend's own `cast`; only its class matters. */
  datatype BackendError = BackendTypeError | BackendOtherError

  datatype CastOutcome = Raised(error: BackendError) | Produced(series: Series)

  /** The `TypeError`s (and the few other exceptions) a safe cast can end in,
      each carrying the numbers its message reports. */
  datatype CastError =
    | Backend(error: BackendError)
    | Unsupported(from: DType, to: DType)
    | MinBelowZero(actualMin: real)
    | MaxAbove(actualMax: real, allowedMax: int)
    | OutOfRange(actualMin: real, actualMax: real, allowedMin: int, allowedMax: int)
    | NotZeroOne
    | DifferentSeries
    | NoStatistics
    | ShapeMismatch
    | NoCastPath(from: DType, to: DType)
    | NoSafeCast(from: DType)
    | NotIterable

  /** Whether the error is exactly a `TypeError` (what `_fallback_cast` lets through). */
  predicate IsTypeError(e: CastError) {
    e == Backend(BackendTypeError) || e.Unsupported?
  }

  // ---------------------------------------------------------------------------
  // Column statistics and element-wise comparisons

  predicate HasNumber(vs: seq<Value>) {
    exists i :: 0 <= i < |vs| && vs[i].Num?
  }

  predicate AllAtLeast(vs: seq<Value>, lo: real) {
    forall i :: 0 <= i < |vs| && vs[i].Num? ==> lo <= vs[i].r
  }

  predicate AllAtMost(vs: seq<Value>, hi: real) {
    forall i :: 0 <= i < |vs| && vs[i].Num? ==> vs[i].r <= hi
  }

  /** Every number of the column is a value of `t`. */
  predicate InBounds(vs: seq<Value>, t: DType)
    requires IsNumeric(t)
  {
    AllAtLeast(vs, Lo(t) as real) && AllAtMost(vs, Hi(t) as real)
  }

  /** `s.min()`: the least number, skipping nulls; `None` when there is none. */
  function MinOf(vs: seq<Value>): (m: Option<real>)
    ensures m.None? <==> !HasNumber(vs)
    ensures m.Some? ==> AllAtLeast(vs, m.value) && Num(m.value) in vs
  {
    if vs == [] then None
    else
      var rest := MinOf(vs[1..]);
      assert forall i :: 1 <= i < |vs| ==> vs[i] == vs[1..][i - 1];
      match vs[0]
      case Num(x) => if rest.None? || x <= rest.value then Some(x) else rest
      case _ => rest
  }

  /** `s.max()`: the greatest number, skipping nulls; `None` when there is none. */
  function MaxOf(vs: seq<Value>): (m: Option<real>)
    ensures m.None? <==> !HasNumber(vs)
    ensures m.Some? ==> AllAtMost(vs, m.value) && Num(m.value) in vs
  {
    if vs == [] then None
    else
      var rest := MaxOf(vs[1..]);
      assert forall i :: 1 <= i < |vs| ==> vs[i] == vs[1..][i - 1];
      match vs[0]
      case Num(x) => if rest.None? || x >= rest.value then Some(x) else rest
      case _ => rest
  }

  /** Scalar `==` of two values: null when either is null; NaN equals
      NaN exactly when `nanEq` holds, and nothing else. */
  function ValueEq(a: Value, b: Value, nanEq: bool): Option<bool> {
    if a == Null || b == Null then None
    else Some(a == b && (nanEq || a != NaN))
  }

  /** Kleene `|` on nullable booleans. */
  function Or(a: Option<bool>, b: Option<bool>): Option<bool> {
    if a == Some(true) || b == Some(true) then Some(true)
    else if a.None? || b.None? then None
    else Some(false)
  }

  /** `.all()`, which skips nulls. */
  function AllTrue(bs: seq<Option<bool>>): (r: bool)
    ensures r <==> forall i :: 0 <= i < |bs| ==> bs[i] != Some(false)
  {
    if bs == [] then true
    else bs[0] != Some(false) && AllTrue(bs[1..])
  }

  /** `(s == 1) | (s == 0)`, element-wise. */
  function ZeroOrOneMask(vs: seq<Value>, nanEq: bool): (m: seq<Option<bool>>)
    ensures |m| == |vs|
    ensures forall i :: 0 <= i < |vs| ==> m[i] == Or(ValueEq(vs[i], Num(1.0), nanEq), ValueEq(vs[i], Num(0.0), nanEq))
  {
    seq(|vs|, i requires 0 <= i < |vs| => Or(ValueEq(vs[i], Num(1.0), nanEq), ValueEq(vs[i], Num(0.0), nanEq)))
  }

  /** `a == b`, element-wise, for series of one length. */
  function EqMask(a: seq<Value>, b: seq<Value>, nanEq: bool): (m: seq<Option<bool>>)
    requires |a| == |b|
    ensures |m| == |a|
    ensures forall i :: 0 <= i < |a| ==> m[i] == ValueEq(a[i], b[i], nanEq)
  {
    seq(|a|, i requires 0 <= i < |a| => ValueEq(a[i], b[i], nanEq))
  }

  /** Every non-null value is exactly 0 or 1. */
  predicate AllZeroOne(vs: seq<Value>) {
    forall i :: 0 <= i < |vs| && vs[i] != Null ==> vs[i] == Num(0.0) || vs[i] == Num(1.0)
  }

  /** Where both sides are non-null, the cast value is the original value;
      an original NaN round-trips only on a backend where NaN equals NaN. */
  predicate RoundTrips(original: seq<Value>, cast: seq<Value>, nanEq: bool) {
    && |original| == |cast|
    && forall i :: 0 <= i < |original| && original[i] != Null && cast[i] != Null ==>
         original[i] == cast[i] && (nanEq || original[i] != NaN)
  }

  // ---------------------------------------------------------------------------
  // The cast helpers

  /** `_checked_cast`: performs the cast and rejects it when the backend
      hands back a dtype other than the one requested. */
  function CheckedCast(s: Series, to: DType, cast: CastOutcome): (r: Result<Series, CastError>)
    ensures r.Ok? <==> cast.Produced? && cast.series.dtype == to
    ensures r.Ok? ==> r.value == cast.series
    ensures cast.Raised? ==> r == Err(Backend(cast.error))
    ensures cast.Produced? && cast.series.dtype != to ==> r == Err(Unsupported(s.dtype, to))
  {
    match cast
    case Raised(e) => Err(Backend(e))
    case Produced(c) => if c.dtype != to then Err(Unsupported(s.dtype, to)) else Ok(c)
  }

  /** `_int_to_uint_cast`: succeeds only when the column minimum is at least 0. */
  function IntToUIntCast(s: Series, to: DType, cast: CastOutcome): (r: Result<Series, CastError>)
    ensures r.Ok? <==> HasNumber(s.values) && AllAtLeast(s.values, 0.0) && CheckedCast(s, to, cast).Ok?
    ensures r.Ok? ==> r == CheckedCast(s, to, cast)
    ensures HasNumber(s.values) && !AllAtLeast(s.values, 0.0) ==>
      r.Err? && r.error.MinBelowZero? && r.error.actualMin < 0.0
      && Num(r.error.actualMin) in s.values && AllAtLeast(s.values, r.error.actualMin)
  {
    match MinOf(s.values)
    case None => Err(NoStatistics)
    case Some(m) => if m >= 0.0 then CheckedCast(s, to, cast) else Err(MinBelowZero(m))
  }

  /** `_allowed_max_cast`: compares only the column maximum with the target's `_max`. */
  function AllowedMaxCast(s: Series, to: DType, cast: CastOutcome): (r: Result<Series, CastError>)
    requires IsNumeric(to)
    ensures r.Ok? <==> HasNumber(s.values) && AllAtMost(s.values, Hi(to) as real) && CheckedCast(s, to, cast).Ok?
    ensures r.Ok? ==> r == CheckedCast(s, to, cast)
    ensures HasNumber(s.values) && !AllAtMost(s.values, Hi(to) as real) ==>
      r.Err? && r.error.MaxAbove? && r.error.allowedMax == Hi(to) && r.error.actualMax > Hi(to) as real
      && Num(r.error.actualMax) in s.values && AllAtMost(s.values, r.error.actualMax)
  {
    match MaxOf(s.values)
    case None => Err(NoStatistics)
    case Some(m) => if m <= Hi(to) as real then CheckedCast(s, to, cast) else Err(MaxAbove(m, Hi(to)))
  }

  /** `_allowed_range_cast`: the column's [min, max] must lie inside the target's bounds. */
  function AllowedRangeCast(s: Series, to: DType, cast: CastOutcome): (r: Result<Series, CastError>)
    requires IsNumeric(to)
    ensures r.Ok? <==> HasNumber(s.values) && InBounds(s.values, to) && CheckedCast(s, to, cast).Ok?
    ensures r.Ok? ==> r == CheckedCast(s, to, cast)
    ensures HasNumber(s.values) && !InBounds(s.values, to) ==>
      r.Err? && r.error.OutOfRange?
      && r.error.allowedMin == Lo(to) && r.error.allowedMax == Hi(to)
      && MinOf(s.values) == Some(r.error.actualMin) && MaxOf(s.values) == Some(r.error.actualMax)
      && (r.error.actualMin < Lo(to) as real || r.error.actualMax > Hi(to) as real)
  {
    match (MinOf(s.values), MaxOf(s.values))
    case (Some(lo), Some(hi)) =>
      if lo >= Lo(to) as real && hi <= Hi(to) as real then CheckedCast(s, to, cast)
      else Err(OutOfRange(lo, hi, Lo(to), Hi(to)))
    case _ => Err(NoStatistics)
  }

  /** `_numeric_to_boolean_cast`: every value must equal 0 or 1. */
  function NumericToBooleanCast(s: Series, to: DType, cast: CastOutcome, nanEq: bool): (r: Result<Series, CastError>)
    ensures r.Ok? <==> AllZeroOne(s.values) && CheckedCast(s, to, cast).Ok?
    ensures r.Ok? ==> r == CheckedCast(s, to, cast)
    ensures !AllZeroOne(s.values) ==> r == Err(NotZeroOne)
  {
    ZeroOrOneMaskMeansZeroOne(s.values, nanEq);
    if AllTrue(ZeroOrOneMask(s.values, nanEq)) then CheckedCast(s, to, cast) else Err(NotZeroOne)
  }

  /** The mask `(s == 1) | (s == 0)` has no false entry exactly when every
      non-null value is 0 or 1. */
  lemma ZeroOrOneMaskMeansZeroOne(vs: seq<Value>, nanEq: bool)
    ensures AllTrue(ZeroOrOneMask(vs, nanEq)) <==> AllZeroOne(vs)
  {
    var m := ZeroOrOneMask(vs, nanEq);
    forall i | 0 <= i < |vs|
      ensures m[i] != Some(false) <==> (vs[i] != Null ==> vs[i] == Num(0.0) || vs[i] == Num(1.0))
    {
      ZeroOrOneEntry(vs[i], nanEq);
    }
  }

  lemma ZeroOrOneEntry(v: Value, nanEq: bool)
    ensures Or(ValueEq(v, Num(1.0), nanEq), ValueEq(v, Num(0.0), nanEq)) != Some(false)
      <==> (v != Null ==> v == Num(0.0) || v == Num(1.0))
  {
    if v != Null {
      assert ValueEq(v, Num(1.0), nanEq) == Some(v == Num(1.0));
      assert ValueEq(v, Num(0.0), nanEq) == Some(v == Num(0.0));
    }
  }

  /** `_fallback_cast`: performs the cast and keeps it only if the result
      equals the original element-wise. A `TypeError` from the checked cast
      propagates; any other backend failure becomes "different series". */
  function FallbackCast(s: Series, to: DType, cast: CastOutcome, nanEq: bool): (r: Result<Series, CastError>)
    ensures r.Ok? <==> CheckedCast(s, to, cast).Ok? && RoundTrips(s.values, cast.series.values, nanEq)
    ensures r.Ok? ==> r == CheckedCast(s, to, cast)
    ensures CheckedCast(s, to, cast).Err? ==>
      r == (if IsTypeError(CheckedCast(s, to, cast).error) then CheckedCast(s, to, cast) else Err(DifferentSeries))
  {
    match CheckedCast(s, to, cast)
    case Err(e) => if IsTypeError(e) then Err(e) else Err(DifferentSeries)
    case Ok(c) =>
      if |c.values| != |s.values| then Err(ShapeMismatch)
      else if AllTrue(EqMask(c.values, s.values, nanEq)) then Ok(c)
      else Err(DifferentSeries)
  }

  // ---------------------------------------------------------------------------
  // The `_safe_cast` dispatch

  /** Which helper a `(source, target)` pair is sent to. */
  datatype Helper =
    | KeepAsIs      // `return s`
    | CheckedOnly   // `_checked_cast`
    | NonNegative   // `_int_to_uint_cast`
    | UpperBound    // `_allowed_max_cast`
    | WithinRange   // `_allowed_range_cast`
    | ZeroOrOne     // `_numeric_to_boolean_cast`
    | RoundTrip     // `_fallback_cast`
    | NoPath        // "Cannot cast ..."
    | NoMethod      // the source class has no `_safe_cast`
    | MembershipFails  // `to_dtype in (UInt128)`: a class is not a container

  /** The dispatch of every `_safe_cast`, with the Int128 -> UInt128 branch
      read as the membership test `to in {UInt128}` its neighbours use. */
  function HelperFor(from: DType, to: DType): Helper {
    match from
    case Int8 => Int8Dispatch(to)
    case Int16 => Int16Dispatch(to)
    case Int32 => Int32Dispatch(to)
    case Int64 => Int64Dispatch(to)
    case Int128 => Int128Dispatch(to)
    case UInt8 => UInt8Dispatch(to)
    case UInt16 => UInt16Dispatch(to)
    case UInt32 => UInt32Dispatch(to)
    case UInt64 => UInt64Dispatch(to)
    case UInt128 => UInt128Dispatch(to)
    case Float32 => Float32Dispatch(to)
    case Float64 => Float64Dispatch(to)
    case _ => NoMethod
  }

  /** `Int8._safe_cast`. */
  function Int8Dispatch(to: DType): Helper {
    if to in {Int8, Int16, Int32, Int64, Int128, Float32, Float64, String} then CheckedOnly
    else if to in {UInt8, UInt16, UInt32, UInt64, UInt128} then NonNegative
    else if to == Boolean then ZeroOrOne
    else NoPath
  }

  /** `Int16._safe_cast`. */
  function Int16Dispatch(to: DType): Helper {
    if to in {Int16, Int32, Int64, Int128, Float32, Float64, String} then CheckedOnly
    else if to in {UInt16, UInt32, UInt64, UInt128} then NonNegative
    else if to in {Int8, UInt8} then WithinRange
    else if to == Boolean then ZeroOrOne
    else NoPath
  }

  /** `Int32._safe_cast`. */
  function Int32Dispatch(to: DType): Helper {
    if to == Int32 then KeepAsIs
    else if to in {Int64, Int128, Float64, String} then CheckedOnly
    else if to == Boolean then ZeroOrOne
    else if to in {UInt32, UInt64, UInt128} then NonNegative
    else if to in {Int8, Int16, UInt8, UInt16, Float32} then WithinRange
    else NoPath
  }

  /** `Int64._safe_cast`. */
  function Int64Dispatch(to: DType): Helper {
    if to == Int64 then KeepAsIs
    else if to == Int128 then CheckedOnly
    else if to == Boolean then ZeroOrOne
    else if to in {UInt64, UInt128} then NonNegative
    else if to in {Int8, Int16, Int32, UInt8, UInt16, UInt32, Float32, Float64} then WithinRange
    else NoPath
  }

  /** `Int128._safe_cast`. */
  function Int128Dispatch(to: DType): Helper {
    if to == Int128 then KeepAsIs
    else if to == Boolean then ZeroOrOne
    else if to in {UInt128} then NonNegative
    else if to in {Int8, Int16, Int32, Int64, UInt8, UInt16, UInt32, UInt64, Float32, Float64} then WithinRange
    else NoPath
  }

  /** `UInt8._safe_cast`. */
  function UInt8Dispatch(to: DType): Helper {
    if to in {Int16, Int32, Int64, Int128, UInt16, UInt32, UInt64, UInt128, Float32, Float64} then CheckedOnly
    else if to == Boolean then ZeroOrOne
    else if to == Int8 then UpperBound
    else NoPath
  }

  /** `UInt16._safe_cast`. */
  function UInt16Dispatch(to: DType): Helper {
    if to in {Int32, Int64, Int128, UInt32, UInt64, UInt128, Float32, Float64} then CheckedOnly
    else if to == Boolean then ZeroOrOne
    else if to in {Int8, Int16, UInt8} then UpperBound
    else NoPath
  }

  /** `UInt32._safe_cast`. */
  function UInt32Dispatch(to: DType): Helper {
    if to == UInt32 then KeepAsIs
    else if to in {Int64, Int128, UInt64, UInt128, Float64} then CheckedOnly
    else if to == Boolean then ZeroOrOne
    else if to in {Int8, Int16, Int32, UInt8, UInt16, Float32} then UpperBound
    else NoPath
  }

  /** `UInt64._safe_cast`. */
  function UInt64Dispatch(to: DType): Helper {
    if to == UInt64 then KeepAsIs
    else if to in {Int128, UInt128} then CheckedOnly
    else if to == Boolean then ZeroOrOne
    else if to in {Int8, Int16, Int32, Int64, UInt8, UInt16, UInt32, Float32, Float64} then UpperBound
    else NoPath
  }

  /** `UInt128._safe_cast`. */
  function UInt128Dispatch(to: DType): Helper {
    if to == Boolean then ZeroOrOne
    else if to in {Int8, Int16, Int32, Int64, Int128, UInt8, UInt16, UInt32, UInt64, Float32, Float64} then UpperBound
    else NoPath
  }

  /** `Float32._safe_cast`. */
  function Float32Dispatch(to: DType): Helper {
    if to == Float64 then CheckedOnly
    else if to == Boolean then ZeroOrOne
    else if IsInteger(to) then RoundTrip
    else NoPath
  }

  /** `Float64._safe_cast`. */
  function Float64Dispatch(to: DType): Helper {
    if to == Boolean then ZeroOrOne
    else if IsInteger(to) || to == Float32 then RoundTrip
    else NoPath
  }

  /** The dispatch exactly as `Int128._safe_cast` is written: `to_dtype in
      (UInt128)` asks a class whether it contains a value, which raises a
      `TypeError`, so every target past the first two branches fails there. */
  function HelperForAsWritten(from: DType, to: DType): (r: Helper)
    ensures from != Int128 ==> r == HelperFor(from, to)
    ensures from == Int128 ==> (r == HelperFor(from, to) <==> to == Int128 || to == Boolean)
  {
    if from == Int128 && to != Int128 && to != Boolean then MembershipFails else HelperFor(from, to)
  }

  /** Runs the named helper. */
  function Dispatch(helper: Helper, from: DType, s: Series, to: DType, cast: CastOutcome, nanEq: bool): (r: Result<Series, CastError>)
    requires helper in {UpperBound, WithinRange} ==> IsNumeric(to)
    ensures helper == NoPath ==> r == Err(NoCastPath(s.dtype, to))
  {
    match helper
    case KeepAsIs => Ok(s)
    case CheckedOnly => CheckedCast(s, to, cast)
    case NonNegative => IntToUIntCast(s, to, cast)
    case UpperBound => AllowedMaxCast(s, to, cast)
    case WithinRange => AllowedRangeCast(s, to, cast)
    case ZeroOrOne => NumericToBooleanCast(s, to, cast, nanEq)
    case RoundTrip => FallbackCast(s, to, cast, nanEq)
    case NoPath => Err(NoCastPath(s.dtype, to))
    case NoMethod => Err(NoSafeCast(from))
    case MembershipFails => Err(NotIterable)
  }

  /** The two helpers that read `_min`/`_max` are only chosen for numeric
      targets. */
  lemma BoundedHelpersHaveNumericTargets(from: DType, to: DType)
    ensures HelperForAsWritten(from, to) in {UpperBound, WithinRange} ==> IsNumeric(to)
  {
    if IsSigned(from) {
      SignedBoundedHelpers(from, to);
    } else if IsUnsigned(from) {
      UnsignedBoundedHelpers(from, to);
    }
  }

  lemma SignedBoundedHelpers(from: DType, to: DType)
    requires IsSigned(from)
    ensures HelperFor(from, to) in {UpperBound, WithinRange} ==> IsNumeric(to)
  {
    match from
    case Int8 =>
    case Int16 =>
    case Int32 =>
    case Int64 =>
    case Int128 =>
  }

  lemma UnsignedBoundedHelpers(from: DType, to: DType)
    requires IsUnsigned(from)
    ensures HelperFor(from, to) in {UpperBound, WithinRange} ==> IsNumeric(to)
  {
    match from
    case UInt8 =>
    case UInt16 =>
    case UInt32 =>
    case UInt64 =>
    case UInt128 =>
  }

  /** `from._safe_cast(s, to)`, with the backend's cast of `s` to `to` given
      as `cast` and its NaN equality as `nanEq`. */
  function SafeCast(from: DType, s: Series, to: DType, cast: CastOutcome, nanEq: bool): (r: Result<Series, CastError>)
    ensures r.Ok? && HelperFor(from, to) != KeepAsIs ==> r.value.dtype == to
    ensures r.Ok? && HelperFor(from, to) == KeepAsIs ==> r.value == s
  {
    BoundedHelpersHaveNumericTargets(from, to);
    Dispatch(HelperFor(from, to), from, s, to, cast, nanEq)
  }

  /** `from._safe_cast(s, to)` exactly as written (see `HelperForAsWritten`). */
  function SafeCastAsWritten(from: DType, s: Series, to: DType, cast: CastOutcome, nanEq: bool): (r: Result<Series, CastError>)
    ensures from != Int128 ==> r == SafeCast(from, s, to, cast, nanEq)
    ensures from == Int128 && to != Int128 && to != Boolean ==> r == Err(NotIterable)
    ensures from == Int128 && (to == Int128 || to == Boolean) ==> r == SafeCast(from, s, to, cast, nanEq)
  {
    BoundedHelpersHaveNumericTargets(from, to);
    Dispatch(HelperForAsWritten(from, to), from, s, to, cast, nanEq)
  }
}
