/**
 * The argument validators of pyfx/argval/argval.py. A decorator is
 * modelled by the checks its wrapper runs; a decorated function by its
 * parameter names and the checks that guard it, outermost first. The
 * reflection the decorators use (`signature`, `bind`, `apply_defaults`) is
 * abstracted: a call arrives as a map from parameter names to values with
 * the defaults already filled in.
 */
module ArgVal {
  import opened Python

  /** The `type_` argument: a class, or a tuple of classes. */
  datatype TypeSpec = Class(t: PyType) | Classes(ts: seq<PyType>)

  /** `isinstance(v, type_)`: the value's class is the class, or a subclass. */
  predicate IsInstance(v: PyValue, spec: TypeSpec) {
    match spec
    case Class(t) => IsSubtype(TypeOf(v), t)
    case Classes(ts) => exists i :: 0 <= i < |ts| && IsSubtype(TypeOf(v), ts[i])
  }

  /** `type(v) is type_`; no class `is` a tuple of classes. */
  predicate IsExactly(v: PyValue, spec: TypeSpec) {
    spec.Class? && TypeOf(v) == spec.t
  }

  /** One test a wrapper runs before calling the function it wraps. */
  datatype Check =
    | TypeCheck(arg: string, spec: TypeSpec, strict: bool)
    | RangeCheck(arg: string, lower: real, upper: real)

  /** What one check makes of the argument's value. A range check on a value
      `<=` cannot compare raises the comparison's TypeError. */
  function Accept(c: Check, v: PyValue): (o: Outcome)
    ensures c.TypeCheck? && o.Fail? ==> o == Fail(TypeError(c.arg))
    ensures c.RangeCheck? && o.Fail? ==> o == Fail(TypeError(c.arg)) || o == Fail(ValueError(c.arg))
  {
    match c
    case TypeCheck(arg, spec, strict) =>
      if (if strict then IsExactly(v, spec) else IsInstance(v, spec)) then Pass else Fail(TypeError(arg))
    case RangeCheck(arg, lower, upper) =>
      match AsNumber(v)
      case None => Fail(TypeError(arg))
      case Some(n) => if lower <= n <= upper then Pass else Fail(ValueError(arg))
  }

  /** What the source's wrapper raises: the message of a failed type check
      formats `type_.__name__`, and a tuple of classes has no `__name__`, so
      a failed check against a tuple raises AttributeError while building
      the TypeError. */
  function AcceptAsWritten(c: Check, v: PyValue): (o: Outcome)
    ensures o.Pass? <==> Accept(c, v).Pass?
    ensures o != Accept(c, v) <==> c.TypeCheck? && c.spec.Classes? && Accept(c, v).Fail?
  {
    if c.TypeCheck? && c.spec.Classes? && Accept(c, v).Fail? then Fail(AttributeError("__name__"))
    else Accept(c, v)
  }

  /** `Text(..., color=0)` and `Canvas(root, bg_color=0)`: the check against
      `(str, tuple)` rejects the value, and the wrapper raises AttributeError
      where a TypeError naming the argument is meant. */
  lemma TupleSpecFailureMisreported()
    ensures var c := TypeCheck("color", Classes([StrClass, TupleClass]), false);
      && AcceptAsWritten(c, VInt(0)) == Fail(AttributeError("__name__"))
      && Accept(c, VInt(0)) == Fail(TypeError("color"))
  {
    var ts := [StrClass, TupleClass];
    assert !IsInstance(VInt(0), Classes(ts)) by {
      forall i | 0 <= i < |ts| ensures !IsSubtype(IntClass, ts[i]) {
        assert !IsSubtype(ObjectClass, ts[i]);
      }
    }
  }

  /** A strict check accepts only what the non-strict one accepts. */
  lemma StrictAcceptsLess(arg: string, spec: TypeSpec, v: PyValue)
    ensures Accept(TypeCheck(arg, spec, true), v) == Pass ==> Accept(TypeCheck(arg, spec, false), v) == Pass
    ensures !spec.Class? ==> Accept(TypeCheck(arg, spec, true), v) == Fail(TypeError(arg))
  {
    if IsExactly(v, spec) {
      SubtypeReflexive(TypeOf(v));
    }
  }

  /** A subclass instance passes the non-strict check and fails the strict one:
      `True` is an `int`, but its type is not exactly `int`. */
  lemma SubclassSeparatesStrictness(arg: string)
    ensures Accept(TypeCheck(arg, Class(IntClass), false), VBool(true)) == Pass
    ensures Accept(TypeCheck(arg, Class(IntClass), true), VBool(true)) == Fail(TypeError(arg))
  {
  }

  /** The range check is inclusive at both ends, rejects numbers outside with
      ValueError and non-numbers with TypeError. */
  lemma RangeCheckInclusive(arg: string, lower: real, upper: real, v: PyValue)
    ensures AsNumber(v).Some? ==>
      (Accept(RangeCheck(arg, lower, upper), v) == Pass <==> lower <= AsNumber(v).value <= upper)
    ensures AsNumber(v).Some? && !(lower <= AsNumber(v).value <= upper) ==>
      Accept(RangeCheck(arg, lower, upper), v) == Fail(ValueError(arg))
    ensures AsNumber(v).None? ==> Accept(RangeCheck(arg, lower, upper), v) == Fail(TypeError(arg))
    ensures lower <= upper ==>
      Accept(RangeCheck(arg, lower, upper), VFloat(lower)) == Pass
      && Accept(RangeCheck(arg, lower, upper), VFloat(upper)) == Pass
  {
  }

  // The decorator factories -------------------------------------------------

  /** `enforce_type(arg_name, type_, strict)`: the factory itself rejects a
      non-string name and a non-bool `strict`, in that order. */
  function EnforceType(argName: PyValue, spec: TypeSpec, strict: PyValue): (r: Result<seq<Check>>)
    ensures r.Ok? <==> argName.VStr? && strict.VBool?
    ensures !argName.VStr? ==> r == Err(TypeError("arg_name"))
    ensures argName.VStr? && !strict.VBool? ==> r == Err(TypeError("strict"))
    ensures r.Ok? ==> r.value == [TypeCheck(argName.s, spec, strict.b)]
  {
    if !argName.VStr? then Err(TypeError("arg_name"))
    else if !strict.VBool? then Err(TypeError("strict"))
    else Ok([TypeCheck(argName.s, spec, strict.b)])
  }

  /** `enforce_arg_within(arg_name, lower_bound, upper_bound)`. */
  function EnforceArgWithin(argName: PyValue, lower: real, upper: real): (r: Result<seq<Check>>)
    ensures r.Ok? <==> argName.VStr?
    ensures !argName.VStr? ==> r == Err(TypeError("arg_name"))
    ensures r.Ok? ==> r.value == [RangeCheck(argName.s, lower, upper)]
  {
    if !argName.VStr? then Err(TypeError("arg_name")) else Ok([RangeCheck(argName.s, lower, upper)])
  }

  /** `enforce_types(**type_map)` (non-strict) and `enforce_types_strict(**type_map)`:
      one check per entry, in the dictionary's order. */
  function EnforceTypes(typeMap: seq<(string, TypeSpec)>, strict: bool): (d: seq<Check>)
    ensures |d| == |typeMap|
    ensures forall i :: 0 <= i < |d| ==> d[i] == TypeCheck(typeMap[i].0, typeMap[i].1, strict)
  {
    if typeMap == [] then [] else [TypeCheck(typeMap[0].0, typeMap[0].1, strict)] + EnforceTypes(typeMap[1..], strict)
  }

  // Decoration --------------------------------------------------------------

  /** A function as the wrappers see it: its parameter names (the wrappers
      read the wrapped function's signature through `functools.wraps`, so
      decorating never changes them) and the checks that guard it. */
  datatype Wrapped = Wrapped(params: seq<string>, checks: seq<Check>)

  function Undecorated(params: seq<string>): (w: Wrapped)
    ensures w.params == params && w.checks == []
  {
    Wrapped(params, [])
  }

  /** Every check names a parameter of the function. */
  predicate WellFormed(w: Wrapped) {
    forall i :: 0 <= i < |w.checks| ==> w.checks[i].arg in w.params
  }

  /** The first check, in order, that names no parameter. */
  function FirstUnknown(d: seq<Check>, params: seq<string>): (r: Option<nat>)
    ensures r.None? <==> forall i :: 0 <= i < |d| ==> d[i].arg in params
    ensures r.Some? ==>
      r.value < |d| && d[r.value].arg !in params
      && forall i :: 0 <= i < r.value ==> d[i].arg in params
  {
    if d == [] then None
    else if d[0].arg !in params then Some(0)
    else match FirstUnknown(d[1..], params)
      case None => None
      case Some(k) => Some(k + 1)
  }

  /** Applying a decorator whose wrapper runs the checks `d`: a ValueError at
      decoration time when a named argument is not a parameter; otherwise the
      new checks run before those already in place. */
  function Decorate(w: Wrapped, d: seq<Check>): (r: Result<Wrapped>)
    ensures r.Ok? <==> forall i :: 0 <= i < |d| ==> d[i].arg in w.params
    ensures r.Ok? ==> r.value.params == w.params && r.value.checks == d + w.checks
    ensures r.Ok? && WellFormed(w) ==> WellFormed(r.value)
    ensures r.Err? ==>
      exists k :: 0 <= k < |d| && d[k].arg !in w.params && r.error == ValueError(d[k].arg)
        && forall i :: 0 <= i < k ==> d[i].arg in w.params
  {
    match FirstUnknown(d, w.params)
    case Some(k) => Err(ValueError(d[k].arg))
    case None => Ok(Wrapped(w.params, d + w.checks))
  }

  /** All checks of a list of decorators, top to bottom. */
  function Concat(ds: seq<seq<Check>>): seq<Check> {
    if ds == [] then [] else ds[0] + Concat(ds[1..])
  }

  /** One single-check decorator per check, in order, as a stack of
      `enforce_type` or `enforce_arg_within` lines gives. */
  function OneEach(cs: seq<Check>): (ds: seq<seq<Check>>)
    ensures |ds| == |cs| && forall i :: 0 <= i < |cs| ==> ds[i] == [cs[i]]
  {
    seq(|cs|, i requires 0 <= i < |cs| => [cs[i]])
  }

  lemma {:induction false} ConcatOneEach(cs: seq<Check>)
    ensures Concat(OneEach(cs)) == cs
  {
    if cs != [] {
      assert OneEach(cs)[1..] == OneEach(cs[1..]);
      ConcatOneEach(cs[1..]);
    }
  }

  /** A stack of decorators written top to bottom: Python applies the bottom
      one first, so a decoration error names the lowest offending
      decorator, and on success the top decorator's checks run first. */
  function ApplyDecorators(w: Wrapped, ds: seq<seq<Check>>): (r: Result<Wrapped>)
    ensures r.Ok? <==> forall i, j :: 0 <= i < |ds| && 0 <= j < |ds[i]| ==> ds[i][j].arg in w.params
    ensures r.Ok? ==> r.value.params == w.params && r.value.checks == Concat(ds) + w.checks
    ensures r.Ok? && WellFormed(w) ==> WellFormed(r.value)
    ensures r.Err? ==>
      exists i :: 0 <= i < |ds| && Decorate(w, ds[i]) == r
        && forall j, c :: i < j < |ds| && 0 <= c < |ds[j]| ==> ds[j][c].arg in w.params
  {
    if ds == [] then Ok(w)
    else
      match ApplyDecorators(w, ds[1..])
      case Err(e) =>
        assert forall i :: 1 <= i < |ds| ==> ds[i] == ds[1..][i - 1];
        Err(e)
      case Ok(inner) =>
        assert forall i :: 1 <= i < |ds| ==> ds[i] == ds[1..][i - 1];
        Decorate(inner, ds[0])
  }

  // Calling a decorated function --------------------------------------------

  /** The bound arguments supply a value for every checked parameter. */
  predicate Binds(checks: seq<Check>, args: map<string, PyValue>) {
    forall i :: 0 <= i < |checks| ==> checks[i].arg in args
  }

  /** The wrappers' checks, outermost first; the first failure is raised. */
  function RunChecks(checks: seq<Check>, args: map<string, PyValue>): (r: Outcome)
    requires Binds(checks, args)
    ensures r == Pass <==> forall i :: 0 <= i < |checks| ==> Accept(checks[i], args[checks[i].arg]) == Pass
    ensures r.Fail? ==>
      exists k :: 0 <= k < |checks| && Accept(checks[k], args[checks[k].arg]) == r
        && forall i :: 0 <= i < k ==> Accept(checks[i], args[checks[i].arg]) == Pass
  {
    if checks == [] then Pass
    else
      var first := Accept(checks[0], args[checks[0].arg]);
      if first.Fail? then first
      else
        var rest := RunChecks(checks[1..], args);
        assert forall i :: 1 <= i < |checks| ==> checks[i] == checks[1..][i - 1];
        rest
  }

  /** The exception raised is that of the first failing check. */
  lemma FirstFailureRaised(checks: seq<Check>, args: map<string, PyValue>, k: nat)
    requires Binds(checks, args) && k < |checks|
    requires forall i :: 0 <= i < k ==> Accept(checks[i], args[checks[i].arg]) == Pass
    requires Accept(checks[k], args[checks[k].arg]).Fail?
    ensures RunChecks(checks, args) == Accept(checks[k], args[checks[k].arg])
  {
  }

  /** Stacked decorators: the outer decorator's checks all run, and the inner
      ones run only when they pass. */
  lemma {:induction false} OuterChecksRunFirst(outer: seq<Check>, inner: seq<Check>, args: map<string, PyValue>)
    requires Binds(outer, args) && Binds(inner, args)
    ensures Binds(outer + inner, args)
    ensures RunChecks(outer + inner, args) == if RunChecks(outer, args).Fail? then RunChecks(outer, args) else RunChecks(inner, args)
  {
    var all := outer + inner;
    assert Binds(all, args) by {
      forall i | 0 <= i < |all| ensures all[i].arg in args {
        if i >= |outer| { assert all[i] == inner[i - |outer|]; }
      }
    }
    if outer == [] {
      assert all == inner;
    } else {
      var rest := outer[1..];
      assert all[0] == outer[0];
      assert all[1..] == rest + inner;
      assert Binds(rest, args) by {
        forall i | 0 <= i < |rest| ensures rest[i].arg in args {
          assert rest[i] == outer[i + 1];
        }
      }
      OuterChecksRunFirst(rest, inner, args);
      var first := Accept(outer[0], args[outer[0].arg]);
      if first.Pass? {
        assert RunChecks(all, args) == RunChecks(rest + inner, args);
        assert RunChecks(outer, args) == RunChecks(rest, args);
      }
    }
  }

  /** A call through the wrappers: the checks, then the body on success. */
  function Call(w: Wrapped, args: map<string, PyValue>): Outcome
    requires Binds(w.checks, args)
  {
    RunChecks(w.checks, args)
  }

  /** The wrapper runs `body` with the original arguments iff every check
      passes and returns its result unchanged; otherwise it raises the first
      failing check's exception. */
  function Invoke<R>(w: Wrapped, args: map<string, PyValue>, body: map<string, PyValue> -> Result<R>): (r: Result<R>)
    requires Binds(w.checks, args)
    ensures (forall i :: 0 <= i < |w.checks| ==> Accept(w.checks[i], args[w.checks[i].arg]) == Pass) ==>
      r == body(args)
    ensures !(forall i :: 0 <= i < |w.checks| ==> Accept(w.checks[i], args[w.checks[i].arg]) == Pass) ==>
      && r.Err?
      && exists k :: 0 <= k < |w.checks| && Accept(w.checks[k], args[w.checks[k].arg]) == Fail(r.error)
           && forall i :: 0 <= i < k ==> Accept(w.checks[i], args[w.checks[i].arg]) == Pass
  {
    match Call(w, args)
    case Pass => body(args)
    case Fail(e) => Err(e)
  }

  /** On failure the body is never consulted: any two bodies give the same
      result, and that result is the failing check's error. */
  lemma InvokeSkipsBodyOnFailure<R>(w: Wrapped, args: map<string, PyValue>, b1: map<string, PyValue> -> Result<R>, b2: map<string, PyValue> -> Result<R>)
    requires Binds(w.checks, args)
    ensures Call(w, args).Pass? ==> Invoke(w, args, b1) == b1(args)
    ensures Call(w, args).Fail? ==> Invoke(w, args, b1) == Invoke(w, args, b2) == Err(Call(w, args).error)
  {
  }

  /** `enforce_types`/`enforce_types_strict` pass iff every entry of the type
      map accepts its argument. */
  lemma EnforceTypesPassIff(params: seq<string>, typeMap: seq<(string, TypeSpec)>, strict: bool, args: map<string, PyValue>)
    requires forall i :: 0 <= i < |typeMap| ==> typeMap[i].0 in args
    ensures Binds(EnforceTypes(typeMap, strict), args)
    ensures RunChecks(EnforceTypes(typeMap, strict), args) == Pass <==>
      forall i :: 0 <= i < |typeMap| ==>
        if strict then IsExactly(args[typeMap[i].0], typeMap[i].1) else IsInstance(args[typeMap[i].0], typeMap[i].1)
  {
    var d := EnforceTypes(typeMap, strict);
    assert forall i :: 0 <= i < |typeMap| ==>
      (Accept(d[i], args[d[i].arg]) == Pass <==>
        if strict then IsExactly(args[typeMap[i].0], typeMap[i].1) else IsInstance(args[typeMap[i].0], typeMap[i].1));
  }
}
