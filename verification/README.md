# checkedframe core in Dafny

This project models the core of checkedframe, a Python library for declaring and checking
dataframe schemas. It covers four parts:

- **The safe-cast matrix** (`_dtypes.py`). For every source and target dtype, `_safe_cast`
  picks one helper. The helper may cast without a check, compare the column's min and max with
  the target's `_min`/`_max`, require every value to be 0 or 1, or cast and compare the result
  with the original. The model proves that each integer class's hand-written dispatch matches
  the classification derived from the bounds. It also proves that an accepted cast of an
  in-range integer column stays in range.
- **The selector algebra** (`selectors.py`). A selector is a condition over
  `(column name, dtype)`. It can be combined with `~ - & | ^` and applied to a schema. The
  model covers the built-in selectors that do not call into the dataframe library, together
  with argument flattening.
- **The check registry** (`_checks.py`). It covers how `Check` infers its input and return
  type, name and description from the function it wraps, the re-binding done by
  `Check.__call__`, and the built-in `in_range` check.
- **Column configuration** (`_config.py`): `Config`, `ConfigList` and `apply_configs`.

The dataframe backend is a parameter:

- `CastOutcome` is what the backend's `cast` did. It either raised, or produced a series with
  some dtype and some values.
- Column values are `Num(real)`, `Inf`, `NaN` and `Null`.
- `==`, `|` and `.all()` follow the backend's null semantics. A comparison with null is null,
  `|` is three-valued, and `.all()` skips nulls.
- Whether the backend's `==` holds between two NaNs is a parameter, `nanEq`. Polars says it
  does; IEEE 754 says it does not. Every cast function and lemma takes it.
- `min`/`max` read only the finite numbers of a column, skipping nulls, NaN and infinities.
  The source reads them only for integer columns, which hold nothing else. Over a column with
  no number they give `None`, and the source then fails when comparing `None` with a number.
  The model reports this as `NoStatistics`.

Python reflection is replaced by plain data in `Checks.Func`:

- the parameter count from `inspect.signature`;
- the string form of the `"return"` annotation;
- `__name__`;
- `__doc__`.

Three points about the code itself:

- The float narrowing casts have no NaN test of their own and rely on the round-trip
  comparison.
  - Where NaN is unequal to NaN, a NaN rejects the cast whenever the backend's cast gives a
    non-null value at its position (`CastProperties.NaNRejectsFloatNarrowing`).
  - Where NaN equals NaN, as in Polars, a Float64 to Float32 cast that keeps the NaN is
    accepted (`CastProperties.NaNSurvivesWhereNaNEqualsNaN`).
  - A backend that turns NaN into null lets the cast through either way.
- The fourth branch of `_in_range` repeats the test for `"both"`, so `"neither"` reaches the
  final `else` and raises `ValueError`.
- `_config.py` imports `Selector` from `selectors.py`, which defines `_Selector`. The model
  treats both names as the one `Selectors.Selector`.

`_set_params` compares `self.return_type == "Expr"` (`_checks.py:80`) where an assignment
seems meant. The model keeps this as written. A zero-parameter function with return type
`"auto"` keeps `"auto"` (`Checks.ZeroArityKeepsAutoReturn`).

Module layout:

- `wrappers.dfy`: `Option` and `Result`.
- `dtypes.dfy`: the dtype tags and their bounds.
- `casts.dfy`: the cast helpers and the dispatch.
- `cast_properties.dfy`: what the matrix guarantees.
- `selectors.dfy`, `checks.dfy` and `config.dfy`: the other three source files.

## Model

| member | source | states |
|---|---|---|
| DTypes.Width | src/checkedframe/_dtypes.py:91-466 | every numeric dtype has a width of 8, 16, 32, 64 or 128 bits |
| DTypes.Lo | src/checkedframe/_dtypes.py:91-438 | `_min` of each numeric class; it is at most 0, and exactly 0 for the unsigned classes only |
| DTypes.Hi | src/checkedframe/_dtypes.py:91-438 | `_max` of each numeric class is positive |
| DTypes.SignedBounds | src/checkedframe/_dtypes.py:91-195 | the signed classes' `_min`/`_max` are -2^(w-1) and 2^(w-1)-1 for their width w |
| DTypes.UnsignedBounds | src/checkedframe/_dtypes.py:229-369 | the unsigned classes' `_min`/`_max` are 0 and 2^w-1 |
| DTypes.FloatBounds | src/checkedframe/_dtypes.py:400-438 | Float32's bounds are ±2^24; Float64's are ±(2^53-1), the exactly representable integers |
| DTypes.IntegersNestByWidth | src/checkedframe/_dtypes.py:91-369 | within one signedness, a class's range contains another's iff its width is at least as large |
| Casts.MinOf | src/checkedframe/_dtypes.py:25 | `s.min()` is None iff the column holds no number; otherwise it is a value of the column and no number is below it |
| Casts.MaxOf | src/checkedframe/_dtypes.py:36 | `s.max()` is None iff the column holds no number; otherwise it is a value of the column and no number is above it |
| Casts.AllTrue | src/checkedframe/_dtypes.py:60 | `.all()` holds iff no element is false (nulls are skipped) |
| Casts.ZeroOrOneMask | src/checkedframe/_dtypes.py:60 | element i of `(s == 1) \| (s == 0)` is the three-valued or of the two comparisons, with the column's length |
| Casts.EqMask | src/checkedframe/_dtypes.py:86 | element i of `s_cast == s` is the scalar comparison of the two elements i |
| Casts.CheckedCast | src/checkedframe/_dtypes.py:7-21 | succeeds iff the backend produced a series of the requested dtype, and returns that series; a backend exception propagates; another dtype is an "unsupported" error |
| Casts.IntToUIntCast | src/checkedframe/_dtypes.py:24-31 | succeeds iff the column has a number, no value is negative and the checked cast succeeds; a negative minimum is reported with its value |
| Casts.AllowedMaxCast | src/checkedframe/_dtypes.py:34-42 | succeeds iff no value exceeds the target's `_max` and the checked cast succeeds; otherwise reports the actual and allowed maximum |
| Casts.AllowedRangeCast | src/checkedframe/_dtypes.py:45-56 | succeeds iff every value lies in the target's `[_min, _max]` and the checked cast succeeds; otherwise reports both ranges |
| Casts.ZeroOrOneMaskMeansZeroOne | src/checkedframe/_dtypes.py:60 | `((s == 1) \| (s == 0)).all()` holds exactly when every non-null value is 0 or 1, whatever the backend's NaN equality |
| Casts.NumericToBooleanCast | src/checkedframe/_dtypes.py:59-65 | succeeds iff every non-null value is 0 or 1 and the checked cast succeeds |
| Casts.FallbackCast | src/checkedframe/_dtypes.py:68-88 | succeeds iff the checked cast succeeds and every non-null value round-trips unchanged; a `TypeError` from the cast propagates, any other failure becomes "different series" |
| Casts.HelperForAsWritten | src/checkedframe/_dtypes.py:205-226 | the dispatch as written differs from the corrected one only for an Int128 source, and there for every target except Int128 and Boolean |
| Casts.Dispatch | src/checkedframe/_dtypes.py:226 | a pair with no cast path fails with "Cannot cast" naming both dtypes |
| Casts.BoundedHelpersHaveNumericTargets | src/checkedframe/_dtypes.py:34-56 | the two helpers that read `_min`/`_max` are only chosen for numeric targets, which have them |
| Casts.SafeCast | src/checkedframe/_dtypes.py:91-466 | `from._safe_cast(s, to)`, with the Int128 membership test corrected (see `Casts.SafeCastAsWritten`): an accepted cast returns a series of the target dtype, or the column itself for an identity cast |
| Casts.SafeCastAsWritten | src/checkedframe/_dtypes.py:205-226 | the as-written dispatch agrees with `SafeCast` for every source other than Int128; from Int128 it agrees for the Int128 and Boolean targets and fails the membership test (`NotIterable`) for every other target |
| CastProperties.DispatchFollowsBounds | src/checkedframe/_dtypes.py:91-397 | for every integer source and numeric target, the helper chosen equals the one read off the two dtypes' bounds: none, upper bound, lower bound or both |
| CastProperties.SameTypeHelper | src/checkedframe/_dtypes.py:103-466 | a numeric class cast to itself is only checked for Int8/Int16, is the identity for Int32/Int64/Int128/UInt32/UInt64, and is "Cannot cast" for UInt8/UInt16/UInt128 and the floats |
| CastProperties.ToBooleanHelper | src/checkedframe/_dtypes.py:91-466 | every numeric class sends a Boolean target to the 0/1 test |
| CastProperties.FloatSourceHelper | src/checkedframe/_dtypes.py:414-466 | float to integer and Float64 to Float32 use the round-trip test; Float32 to Float64 is only checked |
| CastProperties.NonNumericTargetHelper | src/checkedframe/_dtypes.py:91-466 | a numeric class reaches a non-numeric, non-Boolean target only for Int8/Int16/Int32 to String; every other such pair is "Cannot cast" |
| CastProperties.NonNumericSourceHelper | src/checkedframe/_dtypes.py:469-594 | the non-numeric classes have no `_safe_cast`, so a safe cast from them fails with the missing-method error for every column, target and backend outcome |
| CastProperties.UnconditionalCasts | src/checkedframe/_dtypes.py:7-21 | the identity returns the column and an unchecked cast is exactly the checked cast; neither reads a value |
| CastProperties.SignedToUnsignedCast | src/checkedframe/_dtypes.py:24-31 | signed to a wider-or-equal unsigned succeeds iff there is a number, none is negative and the backend cast is faithful |
| CastProperties.SignedNarrowingCast | src/checkedframe/_dtypes.py:45-56 | a signed source narrowing below its range succeeds iff every value is within the target's range and the backend cast is faithful |
| CastProperties.UnsignedNarrowingCast | src/checkedframe/_dtypes.py:34-42 | an unsigned source only has its maximum checked, which suffices because no target's minimum is above 0 |
| CastProperties.SafeCastStaysInBounds | src/checkedframe/_dtypes.py:24-56 | an accepted cast of an in-range integer column to a numeric target leaves every value within the target's range |
| CastProperties.ToBooleanCast | src/checkedframe/_dtypes.py:59-65 | any numeric to Boolean cast succeeds iff every non-null value is 0 or 1 and the backend cast is faithful |
| CastProperties.FloatNarrowingCast | src/checkedframe/_dtypes.py:68-88 | float to integer and Float64 to Float32 succeed iff the backend cast is faithful and every non-null value round-trips; such a cast is returned, one of the requested dtype and length that does not round-trip is rejected as "different series", a `TypeError` propagates, and other backend failures become "different series" |
| CastProperties.NaNRejectsFloatNarrowing | src/checkedframe/_dtypes.py:86 | on a backend where NaN is unequal to NaN, a NaN whose cast value is non-null makes every float narrowing fail |
| CastProperties.NaNSurvivesWhereNaNEqualsNaN | tests/test_cast.py:66-79 | [1.0, 2.0, 3.0, null, NaN] narrowed to Float32 with its values kept is accepted iff the backend's NaN equals NaN, and is otherwise a "different series" |
| CastProperties.DtypeMismatchIsAnError | src/checkedframe/_dtypes.py:16-19 | a backend that silently keeps another dtype makes every casting path fail |
| CastProperties.Float64ToUInt128WithoutBackendSupport | src/checkedframe/_dtypes.py:8-11 | Float64 to UInt128 on a backend without UInt128 comes back unchanged and is rejected as unsupported |
| CastProperties.WholeFloatsCastAndFractionsDoNot | src/checkedframe/_dtypes.py:68-88 | [1.0, 2.0, 3.0, null] casts to Int8; [1.0, 2.0, 3.14] does not |
| CastProperties.Int128AsWrittenRejectsNarrowing | src/checkedframe/_dtypes.py:210 | as written, Int128 to Int64 fails on the membership test for the column [5], which the corrected dispatch casts |
| CastProperties.Int128Corrected | src/checkedframe/_dtypes.py:205-226 | with the membership test corrected, Int128 to UInt128 checks the minimum, other numeric targets check the range, and an accepted cast stays in range |
| Selectors.Selector.Invert | src/checkedframe/selectors.py:19-20 | `~s` holds exactly where `s` does not |
| Selectors.Selector.Sub | src/checkedframe/selectors.py:22-26 | `s - t` holds where `s` holds and `t` does not |
| Selectors.Selector.And | src/checkedframe/selectors.py:28-32 | `s & t` holds where both hold |
| Selectors.Selector.Or | src/checkedframe/selectors.py:34-37 | `s \| t` holds where either holds |
| Selectors.Selector.Xor | src/checkedframe/selectors.py:39-42 | `s ^ t` holds where exactly one holds |
| Selectors.Names | src/checkedframe/selectors.py:16-17 | the schema's column names, in order |
| Selectors.Apply | src/checkedframe/selectors.py:16-17 | `s(schema)` lists exactly the column names whose `(name, dtype)` satisfies `s`, and is no longer than the schema |
| Selectors.ApplyConcat | src/checkedframe/selectors.py:16-17 | applying to a concatenated schema concatenates the selections, so the schema's order is kept |
| Selectors.SameConditionSameSelection | src/checkedframe/selectors.py:16-17 | selectors with the same condition select the same columns of every schema |
| Selectors.ComplementPartitions | src/checkedframe/selectors.py:16-20 | `s` and `~s` together select every column of the schema exactly once |
| Selectors.DeMorgan | src/checkedframe/selectors.py:19-37 | `~(s & t)` selects what `~s \| ~t` does, and `~(s \| t)` what `~s & ~t` does |
| Selectors.Commutative | src/checkedframe/selectors.py:28-42 | `&`, `\|` and `^` select the same columns with their operands swapped |
| Selectors.Associative | src/checkedframe/selectors.py:28-42 | `&`, `\|` and `^` select the same columns however they are grouped |
| Selectors.DerivedOperators | src/checkedframe/selectors.py:19-42 | `s - t` is `s & ~t`, `s ^ t` is `(s \| t) - (s & t)`, and `~~s` is `s` |
| Selectors.FlattenedConcat | src/checkedframe/selectors.py:45-54 | flattening a concatenation concatenates the flattenings |
| Selectors.FlattenedLength | src/checkedframe/selectors.py:45-54 | the flattened list has one item per string plus one per element of each iterable |
| Selectors.FlattenedMembership | src/checkedframe/selectors.py:45-54 | an item is in the flattened list iff some argument contributes it |
| Selectors.FlattenStrIterable | src/checkedframe/selectors.py:45-54 | the loop builds the arguments flattened one level, in order |
| Selectors.All | src/checkedframe/selectors.py:57-58 | `all()` holds for every column |
| Selectors.AllSelectsEveryColumn | src/checkedframe/selectors.py:57-58 | `all()` selects every column name of the schema, in order |
| Selectors.ByName | src/checkedframe/selectors.py:61-64 | `by_name(...)` holds iff the column's name is among the flattened names |
| Selectors.StartsWith | src/checkedframe/selectors.py:71-74 | `starts_with(...)` holds iff some flattened prefix starts the name |
| Selectors.EndsWith | src/checkedframe/selectors.py:77-80 | `ends_with(...)` holds iff some flattened suffix ends the name |
| Selectors.ByDtype | src/checkedframe/selectors.py:83-92 | `by_dtype(...)` holds iff the column's dtype is among the flattened dtypes |
| Selectors.SelectBoolean | src/checkedframe/selectors.py:95-96 | `boolean()` holds iff the dtype is Boolean |
| Selectors.SelectCategorical | src/checkedframe/selectors.py:99-100 | `categorical()` holds iff the dtype is Categorical |
| Selectors.SelectDate | src/checkedframe/selectors.py:103-104 | `date()` holds iff the dtype is Date |
| Selectors.SelectDatetime | src/checkedframe/selectors.py:107-108 | `datetime()` holds iff the dtype is Datetime |
| Selectors.SelectString | src/checkedframe/selectors.py:135-136 | `string()` holds iff the dtype is String |
| Checks.ContainsAt | src/checkedframe/_checks.py:20-22 | Python's `sub in s` holds iff `sub` occurs at some index of `s` |
| Checks.ResolveReturnType | src/checkedframe/_checks.py:8-25 | no annotation gives "auto"; exactly "bool" gives "bool"; otherwise zero parameters or an expression annotation without "Series" give "Expr", a "Series" annotation gives "Series", and anything else "auto" |
| Checks.AnnotationPrecedence | src/checkedframe/_checks.py:14-21 | "bool" wins at every arity, and "Series" wins over "Expr" when both occur |
| Checks.InRangeMask | src/checkedframe/_checks.py:31-46 | as written: "both" is [min, max], "left" is (min, max], "right" is [min, max), and every other value of `closed`, "neither" included, raises `ValueError` |
| Checks.Brackets | src/checkedframe/_checks.py:108-115 | the brackets of the description: "[" iff the interval is "both" or "left", "]" iff it is "both" or "right"; any other value leaves them unassigned |
| Checks.NatToString | src/checkedframe/_checks.py:125 | `str(n)` is a non-empty string of decimal digits, without a leading zero unless it is "0", whose digits denote `n` |
| Checks.IntToString | src/checkedframe/_checks.py:125 | `str(x)` starts with "-" iff `x` is negative, the characters after the sign are exactly `str` of the magnitude of `x`, and a non-negative `x` is written as `str` of the natural number alone |
| Checks.RangeDescription | src/checkedframe/_checks.py:125 | the description starts with "Must be in range ", followed by the left bracket, `str(min_value)`, ", ", `str(max_value)` and the right bracket, and nothing else |
| Checks.InRangeMaskCorrected | src/checkedframe/_checks.py:31-46 | each of the four intervals includes a bound iff its description's bracket on that side is closed |
| Checks.InRangeMaskSwapsLeftAndRight | src/checkedframe/_checks.py:37-42 | on every column and bounds, the as-written mask equals the corrected one for "both" and swaps "left" and "right" |
| Checks.InRangeMaskDisagreesWithDescription | src/checkedframe/_checks.py:39-46 | as written, "left" on 0 with bounds [0, 10) rejects 0, and "neither" is an error; the corrected mask accepts both |
| Checks.Doc | src/checkedframe/_checks.py:93 | `__doc__` is the user function's docstring, and for a partial the class docstring of `functools.partial` |
| Checks.Resolve | src/checkedframe/_checks.py:71-93 | a zero-parameter "auto" input becomes None; otherwise the input type is kept unless the return is "Expr", which leaves none; an "auto" return with an input type left becomes the type its annotation resolves to, and stays "auto" without one; an explicit return type, name or description is kept; a missing name comes from `__name__` except for lambdas; a missing description comes from `__doc__`, or is empty |
| Checks.ZeroArityKeepsAutoReturn | src/checkedframe/_checks.py:74-80 | a zero-parameter function with "auto" input and return ends with no input type and return still "auto" |
| Checks.AnnotatedColumnChecks | src/checkedframe/_checks.py:78-87 | a one-parameter function annotated `pl.Series` is a series check; one annotated `pl.Expr` is an expression check without an input type |
| Checks.ResolveIdempotent | src/checkedframe/_checks.py:71-93 | resolving the fields a second time against the same function changes nothing |
| Checks.Check.constructor | src/checkedframe/_checks.py:50-69 | stores the arguments and, when a function is given, leaves the resolved fields and the parameter count |
| Checks.Check.SetParams | src/checkedframe/_checks.py:71-93 | leaves the function, column and native flag, sets the parameter count, and leaves the resolved fields |
| Checks.Check.Call | src/checkedframe/_checks.py:95-104 | a new check with this one's column, flag and fields, bound to the new function and resolved against it, with that function's parameter count |
| Checks.InRange | src/checkedframe/_checks.py:106-126 | a non-native series check named "in_range" over the `_in_range` partial, with the range description and the partial's parameter count; an unknown `closed` fails |
| Config.Config.constructor | src/checkedframe/_config.py:22-34 | a name selects exactly that column, an iterable of names exactly those, a selector is kept; the options are stored unchanged |
| Config.ConfigList.constructor | src/checkedframe/_config.py:38-40 | holds the configs in the order given |
| Config.ConfigDecorator.Decorate | src/checkedframe/_config.py:44-47 | attaches a new `ConfigList` of the captured configs to the class and returns the same class |
| Config.ApplyConfigs | src/checkedframe/_config.py:43-49 | returns a new decorator capturing the configs |

## Left out

- Values and precision: column values are exact reals. Float32/Float64 rounding, and the
  backend's integer storage, appear only through the `CastOutcome` the backend returns.
- Dtypes are plain tags. The time unit and time zone of Datetime/Duration, the inner types of
  Array/List/Struct, `to_narwhals` and the `__init__` of each class are not modelled.
  Selectors and the cast matrix compare tags.
- The identity tests `to_dtype is ...` are modelled as equality of tags: `_dtypes.py:108`,
  :133, :152, :156, :179, :181, :183, :206, :208, :256, :258, :289, :311, :321, :342, :349,
  :380, :415, :417 and :449. An instance of the class (for example `Int128()`) therefore takes
  the branch the class itself takes. So does every `in (...)` test, which compares with `==`.
- Messages: errors carry the numbers and dtypes their messages report, not the formatted text.
  That includes the thousands separators of `_allowed_range_cast`.
- `matches` (a regular-expression search) and the selectors that call the backend's dtype
  predicates (`decimal`, `float`, `integer`, `signed_integer`, `unsigned_integer`, `numeric`,
  `temporal`) are not modelled. Both depend on code outside this model.
- Checks.InRangeMask: works on integer columns without nulls. The source compares floats, and
  a null element yields a null mask entry.
- Checks.InRange: the bounds are integers, so the description prints them as integers. Python
  prints a float bound such as `1.5` or `1.0` in float form.
- Checks.Check.Call: a wrapped function that is itself a `functools.partial` needs a name, and
  an explicit return type unless the input type is None. A partial has no `__name__` and no
  `__annotations__`, so the source raises `AttributeError` without them. This requirement
  (`Checks.Resolvable`) is a precondition, not an error path.
- Checks.Doc: the text of `functools.partial`'s class docstring is the one CPython's C
  implementation carries. It differs between Python versions.
- Default arguments are not represented. Callers of `Checks.Check.constructor` pass every
  argument. The source's defaults are `func=None`, `column=None`, `input_type="auto"`,
  `return_type="auto"`, `native=True`, `name=None` and `description=None`
  (`_checks.py:52-58`). `Checks.InRange` likewise needs `closed`, whose default is `"both"`
  (`_checks.py:107`).
- The `native` flag, the column and the wrapped function are stored but never evaluated against
  a frame. Running a check is not part of this model.
- Config.Config.constructor: the option dictionary is a map from the five option keys of
  `_PossibleConfigs` to booleans. That is a restriction of the model. The keyword type is
  imported only for type checking (`_config.py:8-9`), so at run time any keyword with any
  value is stored in `dct`.
- The schema compiler and its cache, `_schema_generation.py`, the mypy plugin and the release
  and documentation scripts are not part of this model.

## Findings

| source | as written | input that shows it | evidently intended | confidence | as-written member | corrected member |
|---|---|---|---|---|---|---|
| src/checkedframe/_dtypes.py:210 | the parentheses around `UInt128` hold no comma, so the branch tests membership in the class itself, which is not a container and raises `TypeError` | an Int128 column [5] cast to Int64 | a one-element tuple: UInt128 goes to the non-negative check, and the next branch handles the other numeric targets | medium (depends on the dtype metaclass defining no membership test); not executed | CastProperties.Int128AsWrittenRejectsNarrowing | CastProperties.Int128Corrected |
| src/checkedframe/_checks.py:39-46 | "left" tests min < x <= max and "right" tests min <= x < max, the opposite of the brackets `in_range` writes; the fourth branch repeats "both", so "neither" raises `ValueError` | `in_range(0, 10, "left")` described as [0, 10) rejects 0; `in_range(0, 10, "neither")` raises on any column | each interval closed exactly on the sides its description's brackets show, with an explicit "neither" branch | high; not executed | Checks.InRangeMaskDisagreesWithDescription | Checks.InRangeMaskCorrected |
