/** The check registry of `_checks.py`: how a `Check` resolves its input and
    return shapes, name and description from the function it wraps, how it
    re-binds to a new function, and the built-in `in_range` check.

    Reflection (`inspect.signature`, `__annotations__`, `__name__`,
    `__doc__`) is replaced by plain data carried in `Func`. */
module Checks {
  import opened Wrappers

  datatype InputType = AutoInput | Frame | SeriesInput

  datatype ReturnType = Auto | Bool | Expr | Series

  /** A wrapped function, as far as the registry looks at it: a user function
      with its parameter count, the string form of its `"return"` annotation
      (if any), its `__name__` and its `__doc__`; or the `functools.partial`
      of `_in_range` that `in_range` builds. */
  datatype Func =
    | UserFunc(params: nat, returnAnnotation: Option<string>, identifier: string, doc: Option<string>)
    | RangePartial(minValue: int, maxValue: int, closed: string)

  /** The class docstring of `functools.partial`, which a partial object
      shows as its `__doc__`. */
  const PartialDoc := "partial(func, *args, **keywords) - new function with partial application\n    of the given arguments and keywords.\n"

  /** `func.__doc__`: a user function's docstring, if any; a partial's is
      its class's. */
  function Doc(f: Func): (d: Option<string>)
    ensures f.RangePartial? ==> d == Some(PartialDoc)
    ensures f.UserFunc? ==> d == f.doc
  {
    match f
    case UserFunc(_, _, _, doc) => doc
    case RangePartial(_, _, _) => Some(PartialDoc)
  }

  /** `len(inspect.signature(func).parameters)`; a partial keeps the bound
      keywords as keyword parameters, so `_in_range`'s partial has four. */
  function Arity(f: Func): nat {
    match f
    case UserFunc(p, _, _, _) => p
    case RangePartial(_, _, _) => 4
  }

  /** Python's `sub in s` on strings. */
  predicate Contains(s: string, sub: string) {
    sub <= s || (s != [] && Contains(s[1..], sub))
  }

  /** `sub` occurs in `s` starting at index `i`. */
  predicate OccursAt(s: string, sub: string, i: int) {
    0 <= i && i + |sub| <= |s| && s[i..i + |sub|] == sub
  }

  /** `Contains` is substring search: `sub` occurs somewhere in `s`. */
  lemma {:induction false} ContainsAt(s: string, sub: string)
    ensures Contains(s, sub) <==> exists i :: OccursAt(s, sub, i)
  {
    assert OccursAt(s, sub, 0) <==> sub <= s;
    if s != [] {
      ContainsAt(s[1..], sub);
      forall j | OccursAt(s[1..], sub, j)
        ensures OccursAt(s, sub, j + 1)
      {
        TailSlice(s, j, |sub|);
      }
      forall i | OccursAt(s, sub, i) && i > 0
        ensures OccursAt(s[1..], sub, i - 1)
      {
        TailSlice(s, i - 1, |sub|);
      }
    }
  }

  lemma TailSlice(s: string, j: nat, n: nat)
    requires s != [] && j + n <= |s| - 1
    ensures s[1..][j..j + n] == s[j + 1..j + 1 + n]
  {
    var a, b := s[1..][j..j + n], s[j + 1..j + 1 + n];
    assert |a| == n == |b|;
    forall k | 0 <= k < n
      ensures a[k] == b[k]
    {
      assert a[k] == s[1..][j + k] == s[j + 1 + k];
    }
  }

  lemma {:induction false} ContainsNeedsRoom(s: string, sub: string)
    ensures Contains(s, sub) ==> |sub| <= |s|
  {
    if s != [] {
      ContainsNeedsRoom(s[1..], sub);
    }
  }

  /** `_resolve_return_type_from_annotation`, for a function of `arity`
      parameters whose `"return"` annotation reads `annotation`. */
  function ResolveReturnType(arity: nat, annotation: Option<string>): (r: ReturnType)
    ensures annotation.None? ==> r == Auto
    ensures r == Bool <==> annotation == Some("bool")
    ensures r == Series <==>
      annotation.Some? && annotation.value != "bool" && arity > 0 && Contains(annotation.value, "Series")
    ensures r == Expr <==>
      annotation.Some? && annotation.value != "bool"
      && (arity == 0 || (!Contains(annotation.value, "Series") && Contains(annotation.value, "Expr")))
  {
    match annotation
    case None => Auto
    case Some(dtype) =>
      if dtype == "bool" then Bool
      else if arity == 0 then Expr
      else if Contains(dtype, "Series") then Series
      else if Contains(dtype, "Expr") then Expr
      else Auto
  }

  /** An annotation exactly "bool" resolves to `Bool` whatever the arity, and
      one naming both a series and an expression resolves to `Series`. */
  lemma AnnotationPrecedence(arity: nat, annotation: string)
    ensures ResolveReturnType(arity, Some("bool")) == Bool
    ensures arity > 0 && annotation != "bool" && Contains(annotation, "Series") && Contains(annotation, "Expr")
      ==> ResolveReturnType(arity, Some(annotation)) == Series
    ensures ResolveReturnType(arity, Some("pl.Series")) == (if arity == 0 then Expr else Series)
  {
    assert Contains("pl.Series", "Series") by {
      assert "pl.Series"[3..] == "Series";
    }
  }

  // ---------------------------------------------------------------------------
  // `_in_range` and the `in_range` description

  datatype CheckError =
    | InvalidClosed    // `_in_range`: ValueError("Invalid argument to `closed`")
    | UnboundBrackets  // `in_range`: the brackets are never assigned

  /** `_in_range` as written, element-wise over an integer column. The
      fourth branch of the source repeats the test `closed == "both"`, so it
      is never taken and "neither" falls through to the error. */
  function InRangeMask(s: seq<int>, minValue: int, maxValue: int, closed: string): (r: Result<seq<bool>, CheckError>)
    ensures r.Ok? <==> closed in {"both", "left", "right"}
    ensures r.Err? ==> r.error == InvalidClosed
    ensures r.Ok? ==> |r.value| == |s|
    ensures closed == "both" ==> forall i :: 0 <= i < |s| ==> (r.value[i] <==> minValue <= s[i] <= maxValue)
    ensures closed == "left" ==> forall i :: 0 <= i < |s| ==> (r.value[i] <==> minValue < s[i] <= maxValue)
    ensures closed == "right" ==> forall i :: 0 <= i < |s| ==> (r.value[i] <==> minValue <= s[i] < maxValue)
  {
    if closed == "both" then Ok(seq(|s|, i requires 0 <= i < |s| => s[i] >= minValue && s[i] <= maxValue))
    else if closed == "left" then Ok(seq(|s|, i requires 0 <= i < |s| => s[i] > minValue && s[i] <= maxValue))
    else if closed == "right" then Ok(seq(|s|, i requires 0 <= i < |s| => s[i] >= minValue && s[i] < maxValue))
    else Err(InvalidClosed)
  }

  /** The brackets `in_range` writes into its description. */
  function Brackets(closed: string): (r: Option<(char, char)>)
    ensures r.Some? <==> closed in {"both", "left", "right", "neither"}
    ensures r.Some? ==> (r.value.0 == '[' <==> closed in {"both", "left"})
    ensures r.Some? ==> (r.value.1 == ']' <==> closed in {"both", "right"})
  {
    if closed == "both" then Some(('[', ']'))
    else if closed == "left" then Some(('[', ')'))
    else if closed == "right" then Some(('(', ']'))
    else if closed == "neither" then Some(('(', ')'))
    else None
  }

  function DigitChar(d: nat): (c: char)
    requires d < 10
    ensures '0' <= c <= '9' && c as int - '0' as int == d
  {
    ('0' as int + d) as char
  }

  /** The number a string of decimal digits denotes, read left to right. */
  function DigitsValue(s: string): nat {
    if s == [] then 0
    else
      var c := s[|s| - 1];
      DigitsValue(s[..|s| - 1]) * 10 + (if '0' <= c <= '9' then c as int - '0' as int else 0)
  }

  /** `str(n)` for a natural number: decimal digits without a leading zero
      that denote `n`. */
  function NatToString(n: nat): (r: string)
    ensures |r| >= 1
    ensures forall i :: 0 <= i < |r| ==> '0' <= r[i] <= '9'
    ensures r[0] == '0' ==> r == "0"
    ensures DigitsValue(r) == n
    decreases n
  {
    if n < 10 then
      assert DigitsValue([DigitChar(n)]) == n by {
        assert [DigitChar(n)][..0] == [];
      }
      [DigitChar(n)]
    else
      var r := NatToString(n / 10) + [DigitChar(n % 10)];
      assert r[..|r| - 1] == NatToString(n / 10);
      r
  }

  /** `str(x)` for an integer: a minus sign exactly for a negative number,
      followed by the decimal form of its magnitude. */
  function IntToString(x: int): (r: string)
    ensures |r| >= 1
    ensures r[0] == '-' <==> x < 0
    ensures x < 0 ==> r[1..] == NatToString(-x) && DigitsValue(r[1..]) == -x
    ensures x >= 0 ==> r == NatToString(x) && DigitsValue(r) == x
  {
    if x < 0 then "-" + NatToString(-x) else NatToString(x)
  }

  /** The description `in_range` builds: "Must be in range " followed by the
      left bracket, the bounds separated by ", ", and the right bracket. */
  function RangeDescription(minValue: int, maxValue: int, brackets: (char, char)): (d: string)
    ensures "Must be in range " <= d && |d| > 18
    ensures d[17] == brackets.0 && d[|d| - 1] == brackets.1
    ensures var lo := IntToString(minValue); var hi := IntToString(maxValue);
      && |d| == 21 + |lo| + |hi|
      && d[18..18 + |lo|] == lo
      && d[18 + |lo|..20 + |lo|] == ", "
      && d[20 + |lo|..|d| - 1] == hi
  {
    var lo, hi := IntToString(minValue), IntToString(maxValue);
    DescriptionLayout(lo, hi, brackets);
    "Must be in range " + [brackets.0] + lo + ", " + hi + [brackets.1]
  }

  /** Where each piece of the description sits, for any two bound strings. */
  lemma DescriptionLayout(lo: string, hi: string, brackets: (char, char))
    ensures var d := "Must be in range " + [brackets.0] + lo + ", " + hi + [brackets.1];
      && "Must be in range " <= d && |d| == 21 + |lo| + |hi|
      && d[17] == brackets.0 && d[|d| - 1] == brackets.1
      && d[18..18 + |lo|] == lo
      && d[18 + |lo|..20 + |lo|] == ", "
      && d[20 + |lo|..|d| - 1] == hi
  {
    var prefix := "Must be in range ";
    var head := prefix + [brackets.0];
    var d := head + lo + ", " + hi + [brackets.1];
    assert |head| == 18 && d[17] == head[17] == brackets.0;
    assert d == prefix + ([brackets.0] + lo + ", " + hi + [brackets.1]);
    ConcatSlice(head, lo, ", " + hi + [brackets.1]);
    ConcatSlice(head + lo, ", ", hi + [brackets.1]);
    ConcatSlice(head + lo + ", ", hi, [brackets.1]);
  }

  /** The middle part of a three-way concatenation is its slice. */
  lemma ConcatSlice(a: string, b: string, c: string)
    ensures (a + b + c)[|a|..|a| + |b|] == b
  {
  }

  /** `_in_range` with the brackets its own description announces: "left"
      is [min, max), "right" is (min, max], "neither" is (min, max). */
  function InRangeMaskCorrected(s: seq<int>, minValue: int, maxValue: int, closed: string): (r: Result<seq<bool>, CheckError>)
    ensures r.Ok? <==> Brackets(closed).Some?
    ensures r.Ok? ==> |r.value| == |s|
    ensures r.Ok? ==> forall i :: 0 <= i < |s| ==>
      (r.value[i] <==>
         (if Brackets(closed).value.0 == '[' then minValue <= s[i] else minValue < s[i])
         && (if Brackets(closed).value.1 == ']' then s[i] <= maxValue else s[i] < maxValue))
  {
    match Brackets(closed)
    case None => Err(InvalidClosed)
    case Some(b) =>
      Ok(seq(|s|, i requires 0 <= i < |s| =>
        (if b.0 == '[' then s[i] >= minValue else s[i] > minValue)
        && (if b.1 == ']' then s[i] <= maxValue else s[i] < maxValue)))
  }

  /** Against the corrected mask, the as-written one agrees on "both" and
      has "left" and "right" swapped, on every column and every bounds. */
  lemma InRangeMaskSwapsLeftAndRight(s: seq<int>, minValue: int, maxValue: int)
    ensures InRangeMask(s, minValue, maxValue, "both") == InRangeMaskCorrected(s, minValue, maxValue, "both")
    ensures InRangeMask(s, minValue, maxValue, "left") == InRangeMaskCorrected(s, minValue, maxValue, "right")
    ensures InRangeMask(s, minValue, maxValue, "right") == InRangeMaskCorrected(s, minValue, maxValue, "left")
  {
    assert InRangeMask(s, minValue, maxValue, "both").value == InRangeMaskCorrected(s, minValue, maxValue, "both").value;
    assert InRangeMask(s, minValue, maxValue, "left").value == InRangeMaskCorrected(s, minValue, maxValue, "right").value;
    assert InRangeMask(s, minValue, maxValue, "right").value == InRangeMaskCorrected(s, minValue, maxValue, "left").value;
  }

  /** As written, "left" excludes the minimum its description "[" includes,
      and "neither" is rejected although its description "()" is produced. */
  lemma InRangeMaskDisagreesWithDescription()
    ensures Brackets("left") == Some(('[', ')'))
    ensures InRangeMask([0], 0, 10, "left") == Ok([false])
    ensures InRangeMaskCorrected([0], 0, 10, "left") == Ok([true])
    ensures Brackets("neither") == Some(('(', ')'))
    ensures InRangeMask([5], 0, 10, "neither") == Err(InvalidClosed)
    ensures InRangeMaskCorrected([5], 0, 10, "neither") == Ok([true])
  {
    var left := InRangeMask([0], 0, 10, "left");
    assert |left.value| == 1 && left.value[0] == false;
    assert left.value == [false];
    var leftCorrected := InRangeMaskCorrected([0], 0, 10, "left");
    assert |leftCorrected.value| == 1 && leftCorrected.value[0] == true;
    assert leftCorrected.value == [true];
    var neither := InRangeMaskCorrected([5], 0, 10, "neither");
    assert |neither.value| == 1 && neither.value[0] == true;
    assert neither.value == [true];
  }

  // ---------------------------------------------------------------------------
  // `Check`

  /** The four fields `_set_params` resolves. */
  datatype Metadata = Metadata(
    inputType: Option<InputType>,
    returnType: ReturnType,
    name: Option<string>,
    description: Option<string>)

  /** The reflection `_set_params` needs is available: a `functools.partial`
      has no `__name__` and no `__annotations__`, so a check wrapping one
      must be given its name, and an `"auto"` return type only where the
      input type is None. */
  predicate Resolvable(f: Func, m: Metadata) {
    f.RangePartial? ==>
      m.name.Some? && (m.returnType == Auto ==> m.inputType.None?)
  }

  /** What `_set_params` leaves in the four fields, step by step. Line 80
      compares instead of assigning, so an `"auto"` return type next to a
      None input type stays `"auto"`. */
  function Resolve(f: Func, m: Metadata): (r: Metadata)
    requires Resolvable(f, m)
    ensures m.inputType == Some(AutoInput) && Arity(f) == 0 ==> r.inputType.None?
    ensures r.returnType == Expr ==> r.inputType.None?
    ensures m.returnType != Auto ==> r.returnType == m.returnType
    ensures r.returnType != Expr && !(m.inputType == Some(AutoInput) && Arity(f) == 0) ==> r.inputType == m.inputType
    ensures m.returnType == Auto && m.inputType.Some? && !(m.inputType == Some(AutoInput) && Arity(f) == 0) ==>
      r.returnType == ResolveReturnType(Arity(f), f.returnAnnotation)
    ensures m.returnType == Auto && m.inputType.None? ==> r.returnType == Auto
    ensures m.name.Some? ==> r.name == m.name
    ensures m.name.None? && f.UserFunc? ==>
      r.name == (if f.identifier == "<lambda>" then None else Some(f.identifier))
    ensures m.description.Some? ==> r.description == m.description
    ensures m.description.None? ==> r.description == Some(Doc(f).GetOr(""))
    ensures r.description.Some?
  {
    var input := if m.inputType == Some(AutoInput) && Arity(f) == 0 then None else m.inputType;
    var ret :=
      if m.returnType == Auto && input.Some? then ResolveReturnType(Arity(f), f.returnAnnotation)
      else m.returnType;
    var input' := if ret == Expr then None else input;
    var name := if m.name.Some? then m.name else if f.identifier == "<lambda>" then None else Some(f.identifier);
    var description := if m.description.Some? then m.description else Some(Doc(f).GetOr(""));
    Metadata(input', ret, name, description)
  }

  /** A zero-parameter function with input `"auto"` and return `"auto"`
      ends with no input type and still `"auto"`, not `"Expr"`. */
  lemma ZeroArityKeepsAutoReturn(f: Func, name: Option<string>, description: Option<string>)
    requires Arity(f) == 0
    ensures f.UserFunc?
    ensures var r := Resolve(f, Metadata(Some(AutoInput), Auto, name, description));
      r.inputType.None? && r.returnType == Auto
  {
  }

  /** A one-parameter function annotated with a series resolves to a series
      check; one annotated with an expression loses its input type. */
  lemma AnnotatedColumnChecks(ident: string, doc: Option<string>)
    ensures Resolve(UserFunc(1, Some("pl.Series"), ident, doc), Metadata(Some(AutoInput), Auto, None, None)).returnType == Series
    ensures Resolve(UserFunc(1, Some("pl.Series"), ident, doc), Metadata(Some(AutoInput), Auto, None, None)).inputType == Some(AutoInput)
    ensures Resolve(UserFunc(1, Some("pl.Expr"), ident, doc), Metadata(Some(AutoInput), Auto, None, None)).returnType == Expr
    ensures Resolve(UserFunc(1, Some("pl.Expr"), ident, doc), Metadata(Some(AutoInput), Auto, None, None)).inputType.None?
  {
    assert Contains("pl.Series", "Series") by {
      assert "pl.Series"[3..] == "Series";
    }
    assert Contains("pl.Expr", "Expr") by {
      assert "pl.Expr"[3..] == "Expr";
    }
    assert !Contains("pl.Expr", "Series") by {
      ContainsNeedsRoom(".Expr", "Series");
      assert "pl.Expr"[1..] == "l.Expr";
      assert "l.Expr"[1..] == ".Expr";
      assert !("Series" <= "pl.Expr") by { assert "Series"[0] != "pl.Expr"[0]; }
      assert !("Series" <= "l.Expr") by { assert "Series"[0] != "l.Expr"[0]; }
      assert !Contains("l.Expr", "Series");
    }
  }

  /** Resolving twice against the same function changes nothing more. */
  lemma ResolveIdempotent(f: Func, m: Metadata)
    requires Resolvable(f, m)
    ensures Resolvable(f, Resolve(f, m))
    ensures Resolve(f, Resolve(f, m)) == Resolve(f, m)
  {
  }

  class Check {
    var func: Option<Func>
    var column: Option<string>
    var inputType: Option<InputType>
    var returnType: ReturnType
    var native: bool
    var name: Option<string>
    var description: Option<string>
    /** `_func_n_params`, only set by `_set_params`. */
    var funcParams: Option<nat>

    function Meta(): Metadata
      reads this
    {
      Metadata(inputType, returnType, name, description)
    }

    /** `Check.__init__`: stores the arguments and, when a function is given,
        resolves the rest from it. */
    constructor(func: Option<Func>, column: Option<string>, inputType: Option<InputType>,
                returnType: ReturnType, native: bool, name: Option<string>, description: Option<string>)
      requires func.Some? ==> Resolvable(func.value, Metadata(inputType, returnType, name, description))
      ensures this.func == func && this.column == column && this.native == native
      ensures func.None? ==>
        Meta() == Metadata(inputType, returnType, name, description) && funcParams.None?
      ensures func.Some? ==>
        Meta() == Resolve(func.value, Metadata(inputType, returnType, name, description))
        && funcParams == Some(Arity(func.value))
    {
      this.func := func;
      this.inputType := inputType;
      this.returnType := returnType;
      this.native := native;
      this.name := name;
      this.description := description;
      this.column := column;
      this.funcParams := None;
      new;
      if func.Some? {
        SetParams();
      }
    }

    /** `_set_params`: assigns, and in places overwrites, the input type,
        return type, name and description. */
    method SetParams()
      requires func.Some? && Resolvable(func.value, Meta())
      modifies this
      ensures func == old(func) && column == old(column) && native == old(native)
      ensures Meta() == Resolve(func.value, old(Meta()))
      ensures funcParams == Some(Arity(func.value))
    {
      var f := func.value;
      funcParams := Some(Arity(f));

      if inputType == Some(AutoInput) {
        if Arity(f) == 0 {
          inputType := None;
        }
      }

      if returnType == Auto && func.Some? {
        if inputType.None? {
          // `self.return_type == "Expr"`: a comparison whose result is dropped.
        } else {
          returnType := ResolveReturnType(Arity(f), f.returnAnnotation);
        }
      }

      if returnType == Expr {
        inputType := None;
      }

      if name.None? {
        name := if f.identifier == "<lambda>" then None else Some(f.identifier);
      }

      if description.None? {
        description := Some(Doc(f).GetOr(""));
      }
    }

    /** `Check.__call__`: a new check with this one's configuration, bound to
        `f` and resolved against it. The receiver is left as it was. */
    method Call(f: Func) returns (c: Check)
      requires Resolvable(f, Meta())
      ensures fresh(c)
      ensures c.func == Some(f) && c.column == column && c.native == native
      ensures c.Meta() == Resolve(f, Meta()) && c.funcParams == Some(Arity(f))
    {
      c := new Check(Some(f), column, inputType, returnType, native, name, description);
    }
  }

  /** `Check.in_range`: a series check over the partial of `_in_range`. An
      unknown `closed` never gets its brackets assigned and fails. */
  method InRange(minValue: int, maxValue: int, closed: string) returns (r: Result<Check, CheckError>)
    ensures r.Ok? <==> closed in {"both", "left", "right", "neither"}
    ensures r.Err? ==> r.error == UnboundBrackets
    ensures r.Ok? ==> fresh(r.value)
    ensures r.Ok? ==>
      && r.value.func == Some(RangePartial(minValue, maxValue, closed))
      && r.value.inputType == Some(SeriesInput) && r.value.returnType == Series
      && !r.value.native && r.value.name == Some("in_range") && r.value.column.None?
      && r.value.funcParams == Some(Arity(RangePartial(minValue, maxValue, closed)))
      && r.value.description == Some(RangeDescription(minValue, maxValue, Brackets(closed).value))
  {
    var brackets := Brackets(closed);
    if brackets.None? {
      return Err(UnboundBrackets);
    }
    var c := new Check(
      Some(RangePartial(minValue, maxValue, closed)), None, Some(SeriesInput), Series, false,
      Some("in_range"), Some(RangeDescription(minValue, maxValue, brackets.value)));
    r := Ok(c);
  }
}
