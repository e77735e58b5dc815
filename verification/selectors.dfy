/** The selector algebra of `selectors.py`: predicates over a column's
    `(name, dtype)`, their boolean combinators, and the built-in selectors
    that do not call into the dataframe library. */
module Selectors {
  import opened DTypes

  /** `_Selector`: a condition over a column's name and dtype. Selectors are
      values, so a combinator can only build a new one; its operands are
      never changed. */
  datatype Selector = Selector(condition: (string, DType) -> bool) {

    /** `~s` */
    function Invert(): (r: Selector)
      ensures forall n, d :: Holds(r, n, d) <==> !Holds(this, n, d)
    {
      Selector((n, d) => !condition(n, d))
    }

    /** `s - t` */
    function Sub(other: Selector): (r: Selector)
      ensures forall n, d :: Holds(r, n, d) <==> Holds(this, n, d) && !Holds(other, n, d)
    {
      Selector((n, d) => condition(n, d) && !other.condition(n, d))
    }

    /** `s & t` */
    function And(other: Selector): (r: Selector)
      ensures forall n, d :: Holds(r, n, d) <==> Holds(this, n, d) && Holds(other, n, d)
    {
      Selector((n, d) => condition(n, d) && other.condition(n, d))
    }

    /** `s | t` */
    function Or(other: Selector): (r: Selector)
      ensures forall n, d :: Holds(r, n, d) <==> Holds(this, n, d) || Holds(other, n, d)
    {
      Selector((n, d) => condition(n, d) || other.condition(n, d))
    }

    /** `s ^ t`: the two conditions differ. */
    function Xor(other: Selector): (r: Selector)
      ensures forall n, d :: Holds(r, n, d) <==> Holds(this, n, d) != Holds(other, n, d)
    {
      Selector((n, d) => condition(n, d) != other.condition(n, d))
    }
  }

  /** A schema: column names with their dtypes, in the dictionary's order. */
  type Schema = seq<(string, DType)>

  predicate Holds(s: Selector, name: string, dtype: DType) {
    s.condition(name, dtype)
  }

  function Names(schema: Schema): (names: seq<string>)
    ensures |names| == |schema|
    ensures forall i :: 0 <= i < |schema| ==> names[i] == schema[i].0
  {
    seq(|schema|, i requires 0 <= i < |schema| => schema[i].0)
  }

  /** `s(schema)`: the names of the columns that satisfy the condition. */
  function Apply(s: Selector, schema: Schema): (names: seq<string>)
    ensures |names| <= |schema|
    ensures forall i :: 0 <= i < |schema| && Holds(s, schema[i].0, schema[i].1) ==> schema[i].0 in names
    ensures forall n :: n in names ==>
      exists i :: 0 <= i < |schema| && schema[i].0 == n && Holds(s, schema[i].0, schema[i].1)
  {
    if schema == [] then []
    else
      var rest := Apply(s, schema[1..]);
      assert forall i :: 1 <= i < |schema| ==> schema[i] == schema[1..][i - 1];
      (if Holds(s, schema[0].0, schema[0].1) then [schema[0].0] else []) + rest
  }

  // ---------------------------------------------------------------------------
  // Order and the algebra of combinators

  /** Selection keeps the schema's order: it distributes over concatenation. */
  lemma {:induction false} ApplyConcat(s: Selector, a: Schema, b: Schema)
    ensures Apply(s, a + b) == Apply(s, a) + Apply(s, b)
  {
    if a != [] {
      assert (a + b)[1..] == a[1..] + b;
      ApplyConcat(s, a[1..], b);
    } else {
      assert a + b == b;
    }
  }

  /** Two selectors whose conditions agree everywhere select the same names. */
  lemma {:induction false} SameConditionSameSelection(s: Selector, t: Selector, schema: Schema)
    requires forall n, d :: Holds(s, n, d) <==> Holds(t, n, d)
    ensures Apply(s, schema) == Apply(t, schema)
  {
    if schema != [] {
      SameConditionSameSelection(s, t, schema[1..]);
    }
  }

  /** Each column lands in exactly one of `s(schema)` and `(~s)(schema)`. */
  lemma {:induction false} ComplementPartitions(s: Selector, schema: Schema)
    ensures |Apply(s, schema)| + |Apply(s.Invert(), schema)| == |schema|
  {
    if schema != [] {
      ComplementPartitions(s, schema[1..]);
    }
  }

  lemma DeMorgan(s: Selector, t: Selector, schema: Schema)
    ensures Apply(s.And(t).Invert(), schema) == Apply(s.Invert().Or(t.Invert()), schema)
    ensures Apply(s.Or(t).Invert(), schema) == Apply(s.Invert().And(t.Invert()), schema)
  {
    SameConditionSameSelection(s.And(t).Invert(), s.Invert().Or(t.Invert()), schema);
    SameConditionSameSelection(s.Or(t).Invert(), s.Invert().And(t.Invert()), schema);
  }

  lemma Commutative(s: Selector, t: Selector, schema: Schema)
    ensures Apply(s.And(t), schema) == Apply(t.And(s), schema)
    ensures Apply(s.Or(t), schema) == Apply(t.Or(s), schema)
    ensures Apply(s.Xor(t), schema) == Apply(t.Xor(s), schema)
  {
    SameConditionSameSelection(s.And(t), t.And(s), schema);
    SameConditionSameSelection(s.Or(t), t.Or(s), schema);
    SameConditionSameSelection(s.Xor(t), t.Xor(s), schema);
  }

  lemma Associative(s: Selector, t: Selector, u: Selector, schema: Schema)
    ensures Apply(s.And(t).And(u), schema) == Apply(s.And(t.And(u)), schema)
    ensures Apply(s.Or(t).Or(u), schema) == Apply(s.Or(t.Or(u)), schema)
    ensures Apply(s.Xor(t).Xor(u), schema) == Apply(s.Xor(t.Xor(u)), schema)
  {
    SameConditionSameSelection(s.And(t).And(u), s.And(t.And(u)), schema);
    SameConditionSameSelection(s.Or(t).Or(u), s.Or(t.Or(u)), schema);
    SameConditionSameSelection(s.Xor(t).Xor(u), s.Xor(t.Xor(u)), schema);
  }

  /** `s - t` is `s & ~t`, `s ^ t` is `(s | t) - (s & t)`, and `~~s` is `s`. */
  lemma DerivedOperators(s: Selector, t: Selector, schema: Schema)
    ensures Apply(s.Sub(t), schema) == Apply(s.And(t.Invert()), schema)
    ensures Apply(s.Xor(t), schema) == Apply(s.Or(t).Sub(s.And(t)), schema)
    ensures Apply(s.Invert().Invert(), schema) == Apply(s, schema)
  {
    SameConditionSameSelection(s.Sub(t), s.And(t.Invert()), schema);
    SameConditionSameSelection(s.Xor(t), s.Or(t).Sub(s.And(t)), schema);
    SameConditionSameSelection(s.Invert().Invert(), s, schema);
  }

  // ---------------------------------------------------------------------------
  // `_flatten_str_iterable` and the built-in selectors

  /** An argument that is either one item or an iterable of items. */
  datatype Nested<T> = One(item: T) | Many(items: seq<T>)

  function Contribution<T>(x: Nested<T>): seq<T> {
    match x
    case One(v) => [v]
    case Many(vs) => vs
  }

  /** The arguments flattened one level, in order. */
  function Flattened<T>(xs: seq<Nested<T>>): seq<T> {
    if xs == [] then [] else Contribution(xs[0]) + Flattened(xs[1..])
  }

  function TotalSize<T>(xs: seq<Nested<T>>): nat {
    if xs == [] then 0 else |Contribution(xs[0])| + TotalSize(xs[1..])
  }

  lemma {:induction false} FlattenedConcat<T>(a: seq<Nested<T>>, b: seq<Nested<T>>)
    ensures Flattened(a + b) == Flattened(a) + Flattened(b)
  {
    if a != [] {
      assert (a + b)[1..] == a[1..] + b;
      FlattenedConcat(a[1..], b);
    } else {
      assert a + b == b;
    }
  }

  /** The output is exactly as long as the contributions together. */
  lemma {:induction false} FlattenedLength<T>(xs: seq<Nested<T>>)
    ensures |Flattened(xs)| == TotalSize(xs)
  {
    if xs != [] {
      FlattenedLength(xs[1..]);
    }
  }

  /** An item is in the output iff some argument contributes it; a string
      argument contributes itself, whole. */
  lemma {:induction false} FlattenedMembership<T>(xs: seq<Nested<T>>, x: T)
    ensures x in Flattened(xs) <==> exists i :: 0 <= i < |xs| && x in Contribution(xs[i])
  {
    if xs != [] {
      FlattenedMembership(xs[1..], x);
      assert forall i :: 1 <= i < |xs| ==> xs[i] == xs[1..][i - 1];
      if x in Flattened(xs[1..]) {
        var i :| 0 <= i < |xs[1..]| && x in Contribution(xs[1..][i]);
        assert x in Contribution(xs[i + 1]);
      }
    }
  }

  /** `_flatten_str_iterable` */
  method FlattenStrIterable(lst: seq<Nested<string>>) returns (res: seq<string>)
    ensures res == Flattened(lst)
  {
    res := [];
    for i := 0 to |lst|
      invariant res == Flattened(lst[..i])
    {
      FlattenedConcat(lst[..i], [lst[i]]);
      assert lst[..i + 1] == lst[..i] + [lst[i]];
      match lst[i]
      case One(s) =>
        res := res + [s];
      case Many(strs) =>
        for j := 0 to |strs|
          invariant res == Flattened(lst[..i]) + strs[..j]
        {
          assert strs[..j + 1] == strs[..j] + [strs[j]];
          res := res + [strs[j]];
        }
        assert strs[..|strs|] == strs;
    }
    assert lst[..|lst|] == lst;
  }

  /** `all()` */
  function All(): (r: Selector)
    ensures forall n, d :: Holds(r, n, d)
  {
    Selector((_, _) => true)
  }

  lemma {:induction false} AllSelectsEveryColumn(schema: Schema)
    ensures Apply(All(), schema) == Names(schema)
  {
    if schema != [] {
      AllSelectsEveryColumn(schema[1..]);
    }
  }

  /** `by_name(*names)` */
  method ByName(names: seq<Nested<string>>) returns (s: Selector)
    ensures forall n, d :: Holds(s, n, d) <==> n in Flattened(names)
  {
    var allNames := FlattenStrIterable(names);
    s := Selector((n, _) => n in allNames);
  }

  /** Python's `str.startswith` with a tuple: some prefix matches. */
  predicate StartsWithAny(name: string, prefixes: seq<string>) {
    exists p :: p in prefixes && p <= name
  }

  predicate IsSuffix(suffix: string, name: string) {
    |suffix| <= |name| && name[|name| - |suffix|..] == suffix
  }

  /** Python's `str.endswith` with a tuple: some suffix matches. */
  predicate EndsWithAny(name: string, suffixes: seq<string>) {
    exists p :: p in suffixes && IsSuffix(p, name)
  }

  /** `starts_with(*prefixes)`; with no prefix, nothing is selected. */
  method StartsWith(prefixes: seq<Nested<string>>) returns (s: Selector)
    ensures forall n, d :: Holds(s, n, d) <==> exists p :: p in Flattened(prefixes) && p <= n
  {
    var allPrefixes := FlattenStrIterable(prefixes);
    s := Selector((n, _) => StartsWithAny(n, allPrefixes));
  }

  /** `ends_with(*suffixes)`; with no suffix, nothing is selected. */
  method EndsWith(suffixes: seq<Nested<string>>) returns (s: Selector)
    ensures forall n, d :: Holds(s, n, d) <==> exists p :: p in Flattened(suffixes) && IsSuffix(p, n)
  {
    var allSuffixes := FlattenStrIterable(suffixes);
    s := Selector((n, _) => EndsWithAny(n, allSuffixes));
  }

  /** `by_dtype(*dtypes)`: membership in the arguments flattened one level. */
  method ByDtype(dtypes: seq<Nested<DType>>) returns (s: Selector)
    ensures forall n, d :: Holds(s, n, d) <==> d in Flattened(dtypes)
  {
    var allDtypes: seq<DType> := [];
    for i := 0 to |dtypes|
      invariant allDtypes == Flattened(dtypes[..i])
    {
      FlattenedConcat(dtypes[..i], [dtypes[i]]);
      assert dtypes[..i + 1] == dtypes[..i] + [dtypes[i]];
      match dtypes[i]
      case Many(xs) =>
        for j := 0 to |xs|
          invariant allDtypes == Flattened(dtypes[..i]) + xs[..j]
        {
          assert xs[..j + 1] == xs[..j] + [xs[j]];
          allDtypes := allDtypes + [xs[j]];
        }
        assert xs[..|xs|] == xs;
      case One(d) =>
        allDtypes := allDtypes + [d];
    }
    assert dtypes[..|dtypes|] == dtypes;
    s := Selector((_, d) => d in allDtypes);
  }

  /** `boolean()` */
  method SelectBoolean() returns (s: Selector)
    ensures forall n, d :: Holds(s, n, d) <==> d == Boolean
  {
    s := ByDtype([One(Boolean)]);
  }

  /** `categorical()` */
  method SelectCategorical() returns (s: Selector)
    ensures forall n, d :: Holds(s, n, d) <==> d == Categorical
  {
    s := ByDtype([One(Categorical)]);
  }

  /** `date()` */
  method SelectDate() returns (s: Selector)
    ensures forall n, d :: Holds(s, n, d) <==> d == Date
  {
    s := ByDtype([One(Date)]);
  }

  /** `datetime()` */
  method SelectDatetime() returns (s: Selector)
    ensures forall n, d :: Holds(s, n, d) <==> d == Datetime
  {
    s := ByDtype([One(Datetime)]);
  }

  /** `string()` */
  method SelectString() returns (s: Selector)
    ensures forall n, d :: Holds(s, n, d) <==> d == String
  {
    s := ByDtype([One(String)]);
  }
}
