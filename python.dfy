/**
 * The part of Python's object model the core relies on: the classes it
 * tests values against, the values themselves, truthiness, numeric
 * comparison, and the exceptions the core raises.
 */
module Python {
  import opened Enums

  /** The classes values are tested against. `NodeSubclass` is any user
      subclass of FXNode; `UserClass` is any other user class. */
  datatype PyType =
    | ObjectClass | NoneClass | IntClass | BoolClass | FloatClass | StrClass | TupleClass
    | AlignmentClass | FXNodeClass | FXGroupClass | NodeSubclass(name: string)
    | TextClass | CanvasClass | DispatcherClass | UserClass(name: string)

  /** Distance from `object` in the class hierarchy. */
  function Depth(t: PyType): nat {
    match t
    case ObjectClass => 0
    case BoolClass | FXGroupClass | NodeSubclass(_) => 2
    case _ => 1
  }

  /** The direct base class; `bool` derives from `int`, FXGroup and user
      effects from FXNode, everything else directly from `object`. */
  function Base(t: PyType): (b: PyType)
    requires t != ObjectClass
    ensures Depth(b) + 1 == Depth(t)
  {
    match t
    case BoolClass => IntClass
    case FXGroupClass => FXNodeClass
    case NodeSubclass(_) => FXNodeClass
    case _ => ObjectClass
  }

  /** `issubclass(t, u)`: `u` is `t` or one of its bases. */
  function IsSubtype(t: PyType, u: PyType): bool
    decreases Depth(t)
  {
    t == u || (t != ObjectClass && IsSubtype(Base(t), u))
  }

  lemma SubtypeReflexive(t: PyType)
    ensures IsSubtype(t, t)
  {
  }

  lemma {:induction false} SubtypeTransitive(a: PyType, b: PyType, c: PyType)
    requires IsSubtype(a, b) && IsSubtype(b, c)
    ensures IsSubtype(a, c)
    decreases Depth(a)
  {
    if a != b {
      SubtypeTransitive(Base(a), b, c);
    }
  }

  /** A proper superclass is strictly closer to `object`. */
  lemma {:induction false} SubtypeDepth(a: PyType, b: PyType)
    requires IsSubtype(a, b)
    ensures Depth(b) <= Depth(a)
    ensures Depth(b) == Depth(a) ==> a == b
    decreases Depth(a)
  {
    if a != b {
      SubtypeDepth(Base(a), b);
    }
  }

  lemma SubtypeAntisymmetric(a: PyType, b: PyType)
    requires IsSubtype(a, b) && IsSubtype(b, a)
    ensures a == b
  {
    SubtypeDepth(a, b);
    SubtypeDepth(b, a);
  }

  /** Classes whose instances are ordinary objects (FXNode is abstract and
      has no instances of its own). */
  predicate IsRefClass(c: PyType) {
    c.FXGroupClass? || c.NodeSubclass? || c.TextClass? || c.CanvasClass?
    || c.DispatcherClass? || c.UserClass?
  }

  type RefClass = c: PyType | IsRefClass(c) witness UserClass("object")

  /** A Python value. An object is its class together with its identity. */
  datatype PyValue =
    | VNone
    | VBool(b: bool)
    | VInt(i: int)
    | VFloat(f: real)
    | VStr(s: string)
    | VTuple(items: seq<PyValue>)
    | VMember(member: Alignment)
    | VObj(cls: RefClass, ref: object)

  /** `type(v)`. */
  function TypeOf(v: PyValue): PyType {
    match v
    case VNone => NoneClass
    case VBool(_) => BoolClass
    case VInt(_) => IntClass
    case VFloat(_) => FloatClass
    case VStr(_) => StrClass
    case VTuple(_) => TupleClass
    case VMember(_) => AlignmentClass
    case VObj(c, _) => c
  }

  /** `bool(v)`: zero, empty strings and tuples and None are false. */
  predicate Truthy(v: PyValue) {
    match v
    case VNone => false
    case VBool(b) => b
    case VInt(i) => i != 0
    case VFloat(f) => f != 0.0
    case VStr(s) => s != ""
    case VTuple(items) => items != []
    case VMember(_) => true
    case VObj(_, _) => true
  }

  datatype Option<T> = None | Some(value: T)

  /** The value a number compares as; None for values `<=` cannot compare
      with a float (Python raises TypeError for those). */
  function AsNumber(v: PyValue): (n: Option<real>)
    ensures n.Some? <==> IsSubtype(TypeOf(v), IntClass) || v.VFloat?
  {
    match v
    case VBool(b) => Some(if b then 1.0 else 0.0)
    case VInt(i) => Some(i as real)
    case VFloat(f) => Some(f)
    case _ => None
  }

  /** `isinstance(v, int)`, which `bool` values also satisfy. */
  predicate IsInt(v: PyValue) {
    IsSubtype(TypeOf(v), IntClass)
  }

  /** Within `PyValue`, the ints are the `int` and `bool` values; instances
      of other `int` subclasses are outside the model. */
  lemma IntInstances(v: PyValue)
    ensures IsInt(v) <==> v.VInt? || v.VBool?
  {
    assert !IsSubtype(ObjectClass, IntClass);
    assert !IsSubtype(FXNodeClass, IntClass);
  }

  /** In the closed hierarchy of `PyType` no class derives from `str`,
      `tuple`, `float`, `NoneType` or the enumeration, so for them
      `isinstance` is an exact type test. Python itself lets user code
      subclass `str`, `tuple` and `float` (a namedtuple is a tuple); such
      values are outside `PyValue`. */
  lemma FinalClass(v: PyValue, t: PyType)
    requires t in {StrClass, TupleClass, FloatClass, NoneClass, AlignmentClass}
    ensures IsSubtype(TypeOf(v), t) <==> TypeOf(v) == t
  {
    assert !IsSubtype(ObjectClass, t);
    assert !IsSubtype(IntClass, t);
    assert !IsSubtype(FXNodeClass, t);
  }

  /** The integer an `int` (or `bool`) value stands for. */
  function IntValue(v: PyValue): (n: int)
    requires IsInt(v)
    ensures AsNumber(v) == Some(n as real)
  {
    IntInstances(v);
    if v.VBool? then (if v.b then 1 else 0) else v.i
  }

  /** The exceptions the core raises. The string names the argument or
      the check concerned. */
  datatype Error =
    | TypeError(subject: string)
    | ValueError(subject: string)
    | AttributeError(subject: string)  // the attribute looked up and not found
    | DuplicateChildError
    | NotIterable(cls: PyType)  // TypeError: the object is not iterable
    | RenderError               // whatever a node's own render raised

  datatype Outcome = Pass | Fail(error: Error)

  datatype Result<T> = Ok(value: T) | Err(error: Error)
}
