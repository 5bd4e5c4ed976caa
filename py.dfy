/**
 * The dynamically typed values the core passes around (decoded JSON,
 * dictionaries of lead/company/job fields) and the Python operations on
 * them whose failure modes the core depends on.
 */
module Py {
  import opened Wrappers
  import Strings

  datatype Value =
    | Null
    | Bool(b: bool)
    | Int(i: int)
    | Str(s: string)
    | List(items: seq<Value>)
    | Dict(fields: map<string, Value>)

  /** A Python `dict` with string keys, as the core's records are. */
  type Record = map<string, Value>

  /**
   * The built-in exceptions an operation on an ill-typed value raises, and
   * the `DataProcessingError` the database helpers raise when a write fails.
   */
  datatype PyError = AttributeError | TypeError | IndexError | KeyError | DataProcessingError

  /** A value, or the exception the computation raised. */
  datatype Res<T> = Ok(value: T) | Fail(error: PyError)
  {
    predicate IsFailure() { Fail? }

    function PropagateFailure<U>(): Res<U>
      requires Fail?
    {
      Fail(error)
    }

    function Extract(): T
      requires Ok?
    {
      value
    }
  }

  /** Python truthiness. */
  predicate Truthy(v: Value)
  {
    match v
    case Null => false
    case Bool(b) => b
    case Int(i) => i != 0
    case Str(s) => s != []
    case List(items) => items != []
    case Dict(fields) => fields != map[]
  }

  /** `d.get(key, default)` on a record, and `get_config(key, default)` on the settings. */
  function Field<V>(d: map<string, V>, key: string, default: V): (r: V)
    ensures key in d ==> r == d[key]
    ensures key !in d ==> r == default
  {
    if key in d then d[key] else default
  }

  /** `v.get(key, default)`: only a dictionary has `get`. */
  function Get(v: Value, key: string, default: Value): (r: Res<Value>)
    ensures r.Ok? <==> v.Dict?
    ensures v.Dict? ==> r.value == Field(v.fields, key, default)
  {
    if v.Dict? then Ok(Field(v.fields, key, default)) else Fail(AttributeError)
  }

  /** `needle in v` for a string `needle`. */
  function In(needle: string, v: Value): (r: Res<bool>)
    ensures r.Ok? <==> (v.Str? || v.List? || v.Dict?)
    ensures v.Str? ==> r == Ok(Strings.Contains(v.s, needle))
    ensures v.Dict? ==> r == Ok(needle in v.fields)
  {
    match v
    case Str(s) => Ok(Strings.Contains(s, needle))
    case List(items) => Ok(Str(needle) in items)
    case Dict(fields) => Ok(needle in fields)
    case _ => Fail(TypeError)
  }

  /** `v.lower()`: only a string has `lower`. */
  function LowerOf(v: Value): (r: Res<string>)
    ensures r.Ok? <==> v.Str?
    ensures v.Str? ==> r.value == Strings.Lower(v.s)
  {
    if v.Str? then Ok(Strings.Lower(v.s)) else Fail(AttributeError)
  }

  /** `v[0]`. */
  function First(v: Value): (r: Res<Value>)
    ensures v.List? && v.items != [] ==> r == Ok(v.items[0])
    ensures v.Str? && v.s != [] ==> r == Ok(Str([v.s[0]]))
    ensures r.Ok? ==> (v.List? && v.items != []) || (v.Str? && v.s != [])
  {
    match v
    case List(items) => if items == [] then Fail(IndexError) else Ok(items[0])
    case Str(s) => if s == [] then Fail(IndexError) else Ok(Str([s[0]]))
    case Dict(_) => Fail(KeyError)
    case _ => Fail(TypeError)
  }

  /**
   * The elements `for x in v` visits. Iterating a dictionary visits its keys;
   * the core only ever tests them for being a dictionary or calls `get` on
   * them, so each key is represented by the empty string.
   */
  function Iterate(v: Value): (r: Res<seq<Value>>)
    ensures v.List? ==> r == Ok(v.items)
    ensures r.Ok? <==> (v.List? || v.Str? || v.Dict?)
    ensures r.Ok? ==> forall x :: x in r.value && !v.List? ==> x.Str?
  {
    match v
    case List(items) => Ok(items)
    case Str(s) => Ok(seq(|s|, i requires 0 <= i < |s| => Str([s[i]])))
    case Dict(fields) => Ok(seq(|fields|, i => Str("")))
    case _ => Fail(TypeError)
  }

  /** A value that is a string or `None`, as every text field of the core is. */
  predicate TextOrNull(v: Value) { v.Null? || v.Str? }

  /**
   * `[f(x) for x in xs]` for an `f` that may raise: the results in order,
   * or the exception of the first element on which `f` raises.
   */
  function MapRes<T, U>(xs: seq<T>, f: T -> Res<U>): (r: Res<seq<U>>)
    ensures r.Ok? <==> forall i :: 0 <= i < |xs| ==> f(xs[i]).Ok?
    ensures r.Ok? ==> |r.value| == |xs| && forall i :: 0 <= i < |xs| ==> f(xs[i]) == Ok(r.value[i])
    ensures r.Fail? ==> exists i :: 0 <= i < |xs| && f(xs[i]) == Fail(r.error) && forall j :: 0 <= j < i ==> f(xs[j]).Ok?
    decreases |xs|
  {
    if xs == [] then Ok([])
    else
      var init := MapRes(xs[..|xs| - 1], f);
      if init.Fail? then
        assert forall i :: 0 <= i < |xs| - 1 ==> xs[..|xs| - 1][i] == xs[i];
        Fail(init.error)
      else
        var last := f(xs[|xs| - 1]);
        if last.Fail? then
          assert forall i :: 0 <= i < |xs| - 1 ==> xs[..|xs| - 1][i] == xs[i];
          Fail(last.error)
        else Ok(init.value + [last.value])
  }

  /** Mapping one more element that does not raise appends its result. */
  lemma MapResSnoc<T, U>(xs: seq<T>, i: nat, f: T -> Res<U>)
    requires i < |xs| && MapRes(xs[..i], f).Ok? && f(xs[i]).Ok?
    ensures MapRes(xs[..i + 1], f) == Ok(MapRes(xs[..i], f).value + [f(xs[i]).value])
  {
    assert xs[..i + 1][..i] == xs[..i];
  }

  /** Once mapping a prefix raises, mapping the whole list raises the same exception. */
  lemma {:induction false} MapResPrefixFailure<T, U>(xs: seq<T>, n: nat, f: T -> Res<U>)
    requires n <= |xs| && MapRes(xs[..n], f).Fail?
    ensures MapRes(xs, f) == MapRes(xs[..n], f)
    decreases |xs| - n
  {
    if n < |xs| {
      assert xs[..n + 1][..n] == xs[..n];
      MapResPrefixFailure(xs, n + 1, f);
    } else {
      assert xs[..n] == xs;
    }
  }

  /**
   * The loop `for x in xs: y = f(x); if test(y): out.append(y)` for an `f`
   * and a `test` that may raise: the results that pass, in order, or the
   * first exception raised.
   */
  function FilterRes<T, U>(xs: seq<T>, f: T -> Res<U>, test: U -> Res<bool>): (r: Res<seq<U>>)
    ensures r.Ok? ==> |r.value| <= |xs|
    decreases |xs|
  {
    if xs == [] then Ok([])
    else
      var n := |xs| - 1;
      var init :- FilterRes(xs[..n], f, test);
      var y :- f(xs[n]);
      var pass :- test(y);
      Ok(if pass then init + [y] else init)
  }

  /** `y`, computed from `x`, passes the test. */
  ghost predicate Passes<T, U>(x: T, y: U, f: T -> Res<U>, test: U -> Res<bool>)
  {
    f(x) == Ok(y) && test(y) == Ok(true)
  }

  /** The loop raises exactly when `f` or `test` does on some element, and otherwise keeps exactly the results that pass. */
  lemma {:induction false} FilterResSpec<T, U>(xs: seq<T>, f: T -> Res<U>, test: U -> Res<bool>)
    ensures FilterRes(xs, f, test).Ok? <==>
      forall i :: 0 <= i < |xs| ==> f(xs[i]).Ok? && test(f(xs[i]).value).Ok?
    ensures FilterRes(xs, f, test).Ok? ==> forall y :: y in FilterRes(xs, f, test).value <==>
      exists i :: 0 <= i < |xs| && Passes(xs[i], y, f, test)
    decreases |xs|
  {
    if xs != [] {
      var n := |xs| - 1;
      var init := xs[..n];
      FilterResSpec(init, f, test);
      assert forall i :: 0 <= i < n ==> init[i] == xs[i];
      if FilterRes(xs, f, test).Ok? {
        var out := FilterRes(xs, f, test).value;
        forall y ensures y in out <==> exists i :: 0 <= i < |xs| && Passes(xs[i], y, f, test)
        {
          if y in out && y !in FilterRes(init, f, test).value {
            assert Passes(xs[n], y, f, test);
          }
          if exists i :: 0 <= i < |xs| && Passes(xs[i], y, f, test) {
            var i :| 0 <= i < |xs| && Passes(xs[i], y, f, test);
            if i < n { assert Passes(init[i], y, f, test); }
          }
        }
      }
    }
  }

  /** Filtering keeps input order: filtering `xs + ys` appends the results for `ys` to those for `xs`. */
  lemma {:induction false} FilterResAppend<T, U>(xs: seq<T>, ys: seq<T>, f: T -> Res<U>, test: U -> Res<bool>)
    requires FilterRes(xs, f, test).Ok? && FilterRes(ys, f, test).Ok?
    ensures FilterRes(xs + ys, f, test) == Ok(FilterRes(xs, f, test).value + FilterRes(ys, f, test).value)
    decreases |ys|
  {
    if ys == [] {
      assert xs + ys == xs;
      assert FilterRes(xs, f, test).value + [] == FilterRes(xs, f, test).value;
    } else {
      var n := |ys| - 1;
      var zs := xs + ys;
      assert zs[..|zs| - 1] == xs + ys[..n];
      assert zs[|zs| - 1] == ys[n];
      FilterResAppend(xs, ys[..n], f, test);
      var y := f(ys[n]).value;
      var pass := test(y).value;
      assert FilterRes(zs, f, test) == Ok(if pass then FilterRes(xs + ys[..n], f, test).value + [y] else FilterRes(xs + ys[..n], f, test).value);
      if pass {
        var a, b := FilterRes(xs, f, test).value, FilterRes(ys[..n], f, test).value;
        assert (a + b) + [y] == a + (b + [y]);
      }
    }
  }

  /** One element: its result when it passes, nothing when it does not, and the exception when `f` or `test` raises. */
  lemma FilterResSingle<T, U>(x: T, f: T -> Res<U>, test: U -> Res<bool>)
    ensures f(x).Fail? ==> FilterRes([x], f, test) == Fail(f(x).error)
    ensures f(x).Ok? && test(f(x).value).Fail? ==> FilterRes([x], f, test) == Fail(test(f(x).value).error)
    ensures f(x).Ok? && test(f(x).value).Ok? ==>
      FilterRes([x], f, test) == Ok(if test(f(x).value).value then [f(x).value] else [])
  {
    assert [x][..0] == [] && [x][0] == x;
    assert FilterRes([x][..0], f, test) == Ok([]);
    if f(x).Ok? {
      assert [] + [f(x).value] == [f(x).value];
    }
  }

  /** Once filtering a prefix raises, filtering the whole list raises the same exception. */
  lemma {:induction false} FilterResPrefixFailure<T, U>(xs: seq<T>, n: nat, f: T -> Res<U>, test: U -> Res<bool>)
    requires n <= |xs| && FilterRes(xs[..n], f, test).Fail?
    ensures FilterRes(xs, f, test) == FilterRes(xs[..n], f, test)
    decreases |xs| - n
  {
    if n < |xs| {
      assert xs[..n + 1][..n] == xs[..n];
      FilterResPrefixFailure(xs, n + 1, f, test);
    } else {
      assert xs[..n] == xs;
    }
  }

  /**
   * The loop `for x in xs: y = f(x); if y is not None: out.append(y)` for an
   * `f` that may raise or skip an element: the kept results, in order, or the
   * first exception raised.
   */
  function SelectRes<T, U>(xs: seq<T>, f: T -> Res<Option<U>>): (r: Res<seq<U>>)
    ensures r.Ok? ==> |r.value| <= |xs|
    decreases |xs|
  {
    if xs == [] then Ok([])
    else
      var n := |xs| - 1;
      var init :- SelectRes(xs[..n], f);
      var y :- f(xs[n]);
      Ok(if y.Some? then init + [y.value] else init)
  }

  /** The loop raises exactly when `f` does on some element, and otherwise keeps exactly the results `f` does not skip. */
  lemma {:induction false} SelectResSpec<T, U>(xs: seq<T>, f: T -> Res<Option<U>>)
    ensures SelectRes(xs, f).Ok? <==> forall i :: 0 <= i < |xs| ==> f(xs[i]).Ok?
    ensures SelectRes(xs, f).Ok? ==> forall y :: y in SelectRes(xs, f).value <==>
      exists i :: 0 <= i < |xs| && f(xs[i]) == Ok(Some(y))
    decreases |xs|
  {
    if xs != [] {
      var n := |xs| - 1;
      var init := xs[..n];
      SelectResSpec(init, f);
      assert forall i :: 0 <= i < n ==> init[i] == xs[i];
      if SelectRes(xs, f).Ok? {
        var out := SelectRes(xs, f).value;
        forall y ensures y in out <==> exists i :: 0 <= i < |xs| && f(xs[i]) == Ok(Some(y))
        {
          if y in out && y !in SelectRes(init, f).value {
            assert f(xs[n]) == Ok(Some(y));
          }
          if exists i :: 0 <= i < |xs| && f(xs[i]) == Ok(Some(y)) {
            var i :| 0 <= i < |xs| && f(xs[i]) == Ok(Some(y));
            if i < n { assert f(init[i]) == Ok(Some(y)); }
          }
        }
      }
    }
  }

  /** The loop keeps input order: running it over `xs + ys` appends the results for `ys` to those for `xs`. */
  lemma {:induction false} SelectResAppend<T, U>(xs: seq<T>, ys: seq<T>, f: T -> Res<Option<U>>)
    requires SelectRes(xs, f).Ok? && SelectRes(ys, f).Ok?
    ensures SelectRes(xs + ys, f) == Ok(SelectRes(xs, f).value + SelectRes(ys, f).value)
    decreases |ys|
  {
    if ys == [] {
      assert xs + ys == xs;
      assert SelectRes(ys, f) == Ok([]);
      assert SelectRes(xs, f).value + [] == SelectRes(xs, f).value;
    } else {
      var n := |ys| - 1;
      var zs := xs + ys;
      assert zs[..|zs| - 1] == xs + ys[..n];
      assert zs[|zs| - 1] == ys[n];
      SelectResAppend(xs, ys[..n], f);
      var y := f(ys[n]).value;
      assert SelectRes(zs, f) == Ok(if y.Some? then SelectRes(xs + ys[..n], f).value + [y.value] else SelectRes(xs + ys[..n], f).value);
      assert SelectRes(ys, f) == Ok(if y.Some? then SelectRes(ys[..n], f).value + [y.value] else SelectRes(ys[..n], f).value);
      if y.Some? {
        var a, b := SelectRes(xs, f).value, SelectRes(ys[..n], f).value;
        assert (a + b) + [y.value] == a + (b + [y.value]);
      }
    }
  }

  /** When `f` keeps every element, nothing is dropped. */
  lemma {:induction false} SelectResKeepsAll<T, U>(xs: seq<T>, f: T -> Res<Option<U>>)
    requires forall i :: 0 <= i < |xs| ==> f(xs[i]).Ok? && f(xs[i]).value.Some?
    ensures SelectRes(xs, f).Ok? && |SelectRes(xs, f).value| == |xs|
    decreases |xs|
  {
    if xs != [] {
      var n := |xs| - 1;
      assert forall i :: 0 <= i < n ==> xs[..n][i] == xs[i];
      SelectResKeepsAll(xs[..n], f);
    }
  }

  /** When `f` skips every element, nothing is kept. */
  lemma {:induction false} SelectResSkipsAll<T, U>(xs: seq<T>, f: T -> Res<Option<U>>)
    requires forall i :: 0 <= i < |xs| ==> f(xs[i]) == Ok(None)
    ensures SelectRes(xs, f) == Ok([])
    decreases |xs|
  {
    if xs != [] {
      var n := |xs| - 1;
      assert forall i :: 0 <= i < n ==> xs[..n][i] == xs[i];
      SelectResSkipsAll(xs[..n], f);
    }
  }

  /** Once the loop raises on a prefix, it raises the same exception on the whole list. */
  lemma {:induction false} SelectResPrefixFailure<T, U>(xs: seq<T>, n: nat, f: T -> Res<Option<U>>)
    requires n <= |xs| && SelectRes(xs[..n], f).Fail?
    ensures SelectRes(xs, f) == SelectRes(xs[..n], f)
    decreases |xs| - n
  {
    if n < |xs| {
      assert xs[..n + 1][..n] == xs[..n];
      SelectResPrefixFailure(xs, n + 1, f);
    } else {
      assert xs[..n] == xs;
    }
  }

  /** `str(b)` for a boolean. */
  function BoolText(b: bool): (r: string)
    ensures |r| == if b then 4 else 5
  {
    if b then "True" else "False"
  }

  /** The application settings that `get_config(key, default)` reads: names to string values. */
  type Config = map<string, string>
}
