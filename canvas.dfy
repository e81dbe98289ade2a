/**
 * The Canvas container (pyfx/containers/canvas.py): a root node, a size and
 * a background colour, validated once and never changed, with the surface
 * it allocates.
 */
module Containers {
  import opened Python
  import opened ArgVal
  import opened Imaging
  import opened Nodes

  const InitParams: seq<string> := ["self", "root", "size", "bg_color"]
  const BgSpec := Classes([StrClass, TupleClass])

  /** The checks of the three `enforce_type` decorators on `__init__`, top to
      bottom. */
  const InitChecks: seq<Check> := [
    TypeCheck("bg_color", BgSpec, false),
    TypeCheck("size", Class(TupleClass), false),
    TypeCheck("root", Class(FXNodeClass), false)]

  const InitGuard: Wrapped := Wrapped(InitParams, InitChecks)

  /** The guard is what the decorator stack builds. */
  lemma InitGuardDecorates()
    ensures ApplyDecorators(Undecorated(InitParams), [
      EnforceType(VStr("bg_color"), BgSpec, VBool(false)).value,
      EnforceType(VStr("size"), Class(TupleClass), VBool(false)).value,
      EnforceType(VStr("root"), Class(FXNodeClass), VBool(false)).value]) == Ok(InitGuard)
  {
    var ds := OneEach(InitChecks);
    assert ds == [
      EnforceType(VStr("bg_color"), BgSpec, VBool(false)).value,
      EnforceType(VStr("size"), Class(TupleClass), VBool(false)).value,
      EnforceType(VStr("root"), Class(FXNodeClass), VBool(false)).value];
    ConcatOneEach(InitChecks);
    assert forall i :: 0 <= i < |InitChecks| ==> InitChecks[i].arg in InitParams;
    assert InitChecks + [] == InitChecks;
  }

  /** The arguments with the parameter names the decorators look up. */
  function InitArgs(root: PyValue, size: PyValue, bgColor: PyValue): (args: map<string, PyValue>)
    ensures args.Keys == {"root", "size", "bg_color"}
    ensures Binds(InitChecks, args)
    ensures args["root"] == root && args["size"] == size && args["bg_color"] == bgColor
  {
    map["root" := root, "size" := size, "bg_color" := bgColor]
  }

  /** The guard raises the TypeError of the first argument, in the order
      `bg_color`, `size`, `root`, that fails its check. */
  lemma InitGuardOrder(root: PyValue, size: PyValue, bgColor: PyValue)
    ensures Call(InitGuard, InitArgs(root, size, bgColor)) ==
      if !IsInstance(bgColor, BgSpec) then Fail(TypeError("bg_color"))
      else if !size.VTuple? then Fail(TypeError("size"))
      else if !IsNodeValue(root) then Fail(TypeError("root"))
      else Pass
  {
    var args := InitArgs(root, size, bgColor);
    FinalClass(size, TupleClass);
    assert Accept(InitChecks[0], args["bg_color"]) == if IsInstance(bgColor, BgSpec) then Pass else Fail(TypeError("bg_color"));
    assert Accept(InitChecks[1], args["size"]) == if size.VTuple? then Pass else Fail(TypeError("size"));
    assert Accept(InitChecks[2], args["root"]) == if IsNodeValue(root) then Pass else Fail(TypeError("root"));
    if !IsInstance(bgColor, BgSpec) {
      FirstFailureRaised(InitChecks, args, 0);
    } else if !size.VTuple? {
      FirstFailureRaised(InitChecks, args, 1);
    } else if !IsNodeValue(root) {
      FirstFailureRaised(InitChecks, args, 2);
    }
  }

  /** A dimension the source accepts: an `int` (a `bool` is one) above zero. */
  predicate PositiveInt(v: PyValue) {
    IsInt(v) && IntValue(v) > 0
  }

  /** A size the constructor accepts: a pair of positive integers. */
  predicate ValidSize(size: PyValue) {
    size.VTuple? && |size.items| == 2 && PositiveInt(size.items[0]) && PositiveInt(size.items[1])
  }

  /** `for dim in size: if not isinstance(dim, int) or dim <= 0: raise ValueError`. */
  function DimsCheck(dims: seq<PyValue>): (o: Outcome)
    ensures o == Pass <==> forall i :: 0 <= i < |dims| ==> PositiveInt(dims[i])
    ensures o.Fail? ==> o == Fail(ValueError("size"))
  {
    if dims == [] then Pass
    else if !PositiveInt(dims[0]) then Fail(ValueError("size"))
    else
      assert forall i :: 1 <= i < |dims| ==> dims[i] == dims[1..][i - 1];
      DimsCheck(dims[1..])
  }

  /** The body's size validation: the arity first, then each dimension. */
  function SizeCheck(items: seq<PyValue>): (o: Outcome)
    ensures o == Pass <==> ValidSize(VTuple(items))
    ensures o.Fail? ==> o == Fail(ValueError("size"))
  {
    if |items| != 2 then Fail(ValueError("size")) else DimsCheck(items)
  }

  /** `Canvas(root, size, bg_color)` up to the field assignments: the type
      checks in decorator order, then the size checks, all before any field
      is set. */
  function Validate(root: PyValue, size: PyValue, bgColor: PyValue): (o: Outcome)
    ensures !IsInstance(bgColor, BgSpec) ==> o == Fail(TypeError("bg_color"))
    ensures IsInstance(bgColor, BgSpec) && !size.VTuple? ==> o == Fail(TypeError("size"))
    ensures IsInstance(bgColor, BgSpec) && size.VTuple? && !IsNodeValue(root) ==> o == Fail(TypeError("root"))
    ensures IsInstance(bgColor, BgSpec) && size.VTuple? && IsNodeValue(root) && !ValidSize(size) ==>
      o == Fail(ValueError("size"))
    ensures o == Pass <==> IsInstance(bgColor, BgSpec) && IsNodeValue(root) && ValidSize(size)
  {
    InitGuardOrder(root, size, bgColor);
    match Call(InitGuard, InitArgs(root, size, bgColor))
    case Fail(e) => Fail(e)
    case Pass => SizeCheck(size.items)
  }

  /** The defaults of `__init__`. */
  const DefaultSize: PyValue := VTuple([VInt(1280), VInt(720)])
  const DefaultBgColor: PyValue := VStr("black")

  /** With the defaults, any root node is accepted. */
  lemma DefaultsValidate(root: PyValue)
    requires IsNodeValue(root)
    ensures Validate(root, DefaultSize, DefaultBgColor) == Pass
  {
    assert IsInstance(DefaultBgColor, BgSpec) by { assert BgSpec.ts[0] == StrClass; }
    assert ValidSize(DefaultSize);
  }

  /** Sizes on either side of each size check. */
  lemma SizeExamples()
    ensures SizeCheck([VInt(5)]) == Fail(ValueError("size"))
    ensures SizeCheck([VInt(1), VInt(2), VInt(3)]) == Fail(ValueError("size"))
    ensures SizeCheck([VInt(0), VInt(5)]) == Fail(ValueError("size"))
    ensures SizeCheck([VInt(5), VInt(-1)]) == Fail(ValueError("size"))
    ensures SizeCheck([VInt(5), VFloat(5.0)]) == Fail(ValueError("size"))
    ensures SizeCheck([VInt(100), VInt(100)]) == Pass
    ensures SizeCheck([VBool(true), VBool(true)]) == Pass
  {
    assert !PositiveInt(VFloat(5.0)) by { IntInstances(VFloat(5.0)); }
    assert PositiveInt(VBool(true)) by { IntInstances(VBool(true)); }
  }

  /** A background colour that is neither a string nor a tuple is reported
      first, even when the size is also wrong. */
  lemma BackgroundCheckedFirst(root: PyValue, size: PyValue)
    ensures Validate(root, size, VInt(0)) == Fail(TypeError("bg_color"))
  {
    assert !IsInstance(VInt(0), BgSpec) by {
      forall i | 0 <= i < |BgSpec.ts| ensures !IsSubtype(IntClass, BgSpec.ts[i]) {
        assert !IsSubtype(ObjectClass, BgSpec.ts[i]);
      }
    }
  }

  /** Text does not derive from FXNode, so a Text object cannot be the root
      of a canvas, however well-formed the other arguments are. */
  lemma TextIsNotARoot(text: object, size: PyValue, bgColor: PyValue)
    requires IsInstance(bgColor, BgSpec) && size.VTuple?
    ensures Validate(VObj(TextClass, text), size, bgColor) == Fail(TypeError("root"))
  {
    NodeInstances(VObj(TextClass, text));
  }

  class Canvas {
    const root: FXNode
    const size: PyValue
    const bgColor: PyValue
    const surface: Surface

    /** The size is a pair of positive integers and the surface has that
        size and the background colour. All fields are constants: there
        are no setters. */
    predicate Valid() {
      ValidSize(size)
      && surface.width == IntValue(size.items[0]) && surface.height == IntValue(size.items[1])
      && surface.background == bgColor
    }

    function Width(): (w: int)
      requires Valid()
      ensures w > 0 && w == surface.width
    {
      IntValue(size.items[0])
    }

    function Height(): (h: int)
      requires Valid()
      ensures h > 0 && h == surface.height
    {
      IntValue(size.items[1])
    }

    /** The field assignments and `Image.new` of `__init__`, after the checks. */
    constructor (root: FXNode, size: PyValue, bgColor: PyValue, measure: Metrics)
      requires ValidSize(size)
      ensures this.root == root && this.size == size && this.bgColor == bgColor
      ensures fresh(surface) && surface.drawn == [] && surface.measure == measure
      ensures Valid()
    {
      this.root := root;
      this.size := size;
      this.bgColor := bgColor;
      surface := new Surface(IntValue(size.items[0]), IntValue(size.items[1]), bgColor, measure);
    }
  }

  /** `Canvas(root, size, bg_color)`: the first failing check's exception, or
      a fresh canvas whose accessors return exactly the arguments. */
  method NewCanvas(root: PyValue, size: PyValue, bgColor: PyValue, measure: Metrics) returns (r: Result<Canvas>)
    requires NodeTagged(root)
    ensures r.Ok? <==> Validate(root, size, bgColor) == Pass
    ensures r.Err? ==> r.error == Validate(root, size, bgColor).error
    ensures r.Ok? ==>
      && fresh(r.value) && fresh(r.value.surface) && r.value.Valid()
      && r.value.root == NodeOf(root) && r.value.size == size && r.value.bgColor == bgColor
      && r.value.surface.drawn == []
  {
    var o := Validate(root, size, bgColor);
    if o.Fail? {
      return Err(o.error);
    }
    var c := new Canvas(NodeOf(root), size, bgColor, measure);
    r := Ok(c);
  }

  /** Values tagged `Canvas` are valid Canvas objects, and no other value is. */
  predicate CanvasTagged(v: PyValue) {
    v.VObj? ==>
      (v.cls == CanvasClass <==> v.ref is Canvas)
      && (v.ref is Canvas ==> (v.ref as Canvas).Valid())
  }
}
