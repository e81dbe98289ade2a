/**
 * The Text effect (pyfx/effects/text.py). Text does not derive from FXNode
 * in the source, and it does not here: it is a value whose fields are set
 * once by the validating constructor and only read afterwards.
 */
module TextEffect {
  import opened Python
  import opened ArgVal
  import opened Imaging

  datatype Text = Text(
    text: string,
    position: PyValue,       // the tuple as given
    font: Font,
    color: PyValue,
    highlightColor: PyValue)
  {
    /** The position holds exactly two integers. */
    predicate Valid() {
      position.VTuple? && |position.items| == 2 && IsInt(position.items[0]) && IsInt(position.items[1])
    }

    function X(): int
      requires Valid()
    {
      IntValue(position.items[0])
    }

    function Y(): int
      requires Valid()
    {
      IntValue(position.items[1])
    }
  }

  const InitParams: seq<string> :=
    ["self", "text", "position", "font", "font_size", "color", "highlight_color"]

  const StrSpec := Class(StrClass)
  const TupleSpec := Class(TupleClass)
  const IntSpec := Class(IntClass)
  const ColorSpec := Classes([StrClass, TupleClass])
  const HighlightSpec := Classes([StrClass, TupleClass, NoneClass])

  /** The checks of the six `enforce_type` decorators on `__init__`, top to
      bottom. */
  const InitChecks: seq<Check> := [
    TypeCheck("text", StrSpec, false),
    TypeCheck("position", TupleSpec, false),
    TypeCheck("font", StrSpec, false),
    TypeCheck("font_size", IntSpec, false),
    TypeCheck("color", ColorSpec, false),
    TypeCheck("highlight_color", HighlightSpec, false)]

  const InitGuard: Wrapped := Wrapped(InitParams, InitChecks)

  /** The guard is what the six `enforce_type` factories build: every one
      names a parameter of `__init__`, so decoration succeeds. */
  lemma InitGuardDecorates()
    ensures ApplyDecorators(Undecorated(InitParams), [
      EnforceType(VStr("text"), StrSpec, VBool(false)).value,
      EnforceType(VStr("position"), TupleSpec, VBool(false)).value,
      EnforceType(VStr("font"), StrSpec, VBool(false)).value,
      EnforceType(VStr("font_size"), IntSpec, VBool(false)).value,
      EnforceType(VStr("color"), ColorSpec, VBool(false)).value,
      EnforceType(VStr("highlight_color"), HighlightSpec, VBool(false)).value]) == Ok(InitGuard)
  {
    var ds := OneEach(InitChecks);
    assert ds == [
      EnforceType(VStr("text"), StrSpec, VBool(false)).value,
      EnforceType(VStr("position"), TupleSpec, VBool(false)).value,
      EnforceType(VStr("font"), StrSpec, VBool(false)).value,
      EnforceType(VStr("font_size"), IntSpec, VBool(false)).value,
      EnforceType(VStr("color"), ColorSpec, VBool(false)).value,
      EnforceType(VStr("highlight_color"), HighlightSpec, VBool(false)).value];
    ConcatOneEach(InitChecks);
    assert forall i :: 0 <= i < |InitChecks| ==> InitChecks[i].arg in InitParams;
    assert InitChecks + [] == InitChecks;
  }

  /** `for dim in position: if not isinstance(dim, int): raise ValueError`. */
  function AllInts(dims: seq<PyValue>): (ok: bool)
    ensures ok <==> forall i :: 0 <= i < |dims| ==> IsInt(dims[i])
  {
    if dims == [] then true
    else
      assert forall i :: 1 <= i < |dims| ==> dims[i] == dims[1..][i - 1];
      IsInt(dims[0]) && AllInts(dims[1..])
  }

  /** A non-empty font name loads the TrueType file `name + ".ttf"`; the empty
      name loads the default font; both at the requested size. */
  function ResolveFont(name: string, size: int): (f: Font)
    ensures f.size == size
    ensures f.TrueType? <==> name != ""
    ensures f.TrueType? ==> f.file == name + ".ttf" && f.file[..|name|] == name
  {
    if name != "" then TrueType(name + ".ttf", size) else DefaultFont(size)
  }

  /** The arguments with the parameter names the decorators look up. */
  function InitArgs(text: PyValue, position: PyValue, font: PyValue, fontSize: PyValue,
                    color: PyValue, highlightColor: PyValue): (args: map<string, PyValue>)
    ensures args.Keys == {"text", "position", "font", "font_size", "color", "highlight_color"}
    ensures Binds(InitChecks, args)
    ensures args["text"] == text && args["position"] == position && args["font"] == font
    ensures args["font_size"] == fontSize && args["color"] == color
    ensures args["highlight_color"] == highlightColor
  {
    map["text" := text, "position" := position, "font" := font, "font_size" := fontSize,
        "color" := color, "highlight_color" := highlightColor]
  }

  /** `Text(text, position, font, font_size, color, highlight_color)`, the
      defaults already applied: the decorators' type checks (each a TypeError
      naming its argument, in the order InitTypeChecksInOrder gives), then
      the shape of `position` (a ValueError), then the fields. */
  function New(text: PyValue, position: PyValue, font: PyValue, fontSize: PyValue,
               color: PyValue, highlightColor: PyValue): (r: Result<Text>)
    ensures var guard := Call(InitGuard, InitArgs(text, position, font, fontSize, color, highlightColor));
      guard.Fail? ==> r == Err(guard.error)
    ensures var guard := Call(InitGuard, InitArgs(text, position, font, fontSize, color, highlightColor));
      guard.Pass? ==> position.VTuple? && (r.Ok? <==> |position.items| == 2 && AllInts(position.items))
    ensures var guard := Call(InitGuard, InitArgs(text, position, font, fontSize, color, highlightColor));
      guard.Pass? && r.Err? ==> r.error == ValueError("position")
    ensures r.Err? && !r.error.TypeError? ==>
      r.error == ValueError("position") && position.VTuple?
      && (|position.items| != 2 || exists i :: 0 <= i < |position.items| && !IsInt(position.items[i]))
    ensures r.Ok? ==>
      r.value.Valid()
      && text == VStr(r.value.text) && r.value.position == position
      && r.value.color == color && r.value.highlightColor == highlightColor
      && font.VStr? && IsInt(fontSize)
      && r.value.font == ResolveFont(font.s, IntValue(fontSize))
  {
    var args := InitArgs(text, position, font, fontSize, color, highlightColor);
    assert Binds(InitGuard.checks, args);
    match Call(InitGuard, args)
    case Fail(e) => Err(e)
    case Pass =>
      InitGuardPasses(text, position, font, fontSize, color, highlightColor);
      if |position.items| != 2 then Err(ValueError("position"))
      else if !AllInts(position.items) then Err(ValueError("position"))
      else Ok(Text(text.s, position, ResolveFont(font.s, IntValue(fontSize)), color, highlightColor))
  }

  /** The arguments in the order of the decorators. */
  function InitValues(text: PyValue, position: PyValue, font: PyValue, fontSize: PyValue,
                      color: PyValue, highlightColor: PyValue): (vs: seq<PyValue>)
    ensures |vs| == |InitChecks|
    ensures forall i :: 0 <= i < |vs| ==>
      vs[i] == InitArgs(text, position, font, fontSize, color, highlightColor)[InitChecks[i].arg]
  {
    [text, position, font, fontSize, color, highlightColor]
  }

  /** The arguments are checked top to bottom: the TypeError raised names the
      first argument, in decorator order, that fails its check, whatever the
      arguments after it are. */
  lemma InitTypeChecksInOrder(text: PyValue, position: PyValue, font: PyValue, fontSize: PyValue,
                              color: PyValue, highlightColor: PyValue, k: nat)
    requires k < |InitChecks|
    requires var vs := InitValues(text, position, font, fontSize, color, highlightColor);
      (forall i :: 0 <= i < k ==> IsInstance(vs[i], InitChecks[i].spec)) && !IsInstance(vs[k], InitChecks[k].spec)
    ensures Call(InitGuard, InitArgs(text, position, font, fontSize, color, highlightColor))
      == Fail(TypeError(InitChecks[k].arg))
  {
    var args := InitArgs(text, position, font, fontSize, color, highlightColor);
    var vs := InitValues(text, position, font, fontSize, color, highlightColor);
    assert Binds(InitChecks, args);
    forall i | 0 <= i < k ensures Accept(InitChecks[i], args[InitChecks[i].arg]) == Pass {
      assert args[InitChecks[i].arg] == vs[i];
    }
    FirstFailureRaised(InitChecks, args, k);
  }

  /** What passing the guard tells the body about its arguments. */
  lemma InitGuardPasses(text: PyValue, position: PyValue, font: PyValue, fontSize: PyValue,
                        color: PyValue, highlightColor: PyValue)
    requires Call(InitGuard, InitArgs(text, position, font, fontSize, color, highlightColor)) == Pass
    ensures text.VStr? && position.VTuple? && font.VStr? && IsInt(fontSize)
  {
    var args := InitArgs(text, position, font, fontSize, color, highlightColor);
    assert Binds(InitChecks, args);
    assert Accept(InitChecks[0], args["text"]) == Pass;
    assert Accept(InitChecks[1], args["position"]) == Pass;
    assert Accept(InitChecks[2], args["font"]) == Pass;
    assert Accept(InitChecks[3], args["font_size"]) == Pass;
    assert IsSubtype(TypeOf(text), StrClass);
    assert IsSubtype(TypeOf(position), TupleClass);
    assert IsSubtype(TypeOf(font), StrClass);
    assert IsInt(fontSize);
    FinalClass(text, StrClass);
    FinalClass(position, TupleClass);
    FinalClass(font, StrClass);
  }

  /** The defaults of `__init__`. */
  const DefaultPosition: PyValue := VTuple([VInt(0), VInt(0)])
  const DefaultFontName: PyValue := VStr("Arial")
  const DefaultFontSize: PyValue := VInt(20)
  const DefaultColor: PyValue := VStr("white")
  const DefaultHighlight: PyValue := VNone

  /** The defaults, with any string, pass every type check. */
  lemma DefaultsPassGuard(s: string)
    ensures Call(InitGuard, InitArgs(VStr(s), DefaultPosition, DefaultFontName, DefaultFontSize, DefaultColor, DefaultHighlight)) == Pass
  {
    var args := InitArgs(VStr(s), DefaultPosition, DefaultFontName, DefaultFontSize, DefaultColor, DefaultHighlight);
    assert IsInstance(DefaultColor, ColorSpec) by { assert ColorSpec.ts[0] == StrClass; }
    assert IsInstance(DefaultHighlight, HighlightSpec) by { assert HighlightSpec.ts[2] == NoneClass; }
    forall i | 0 <= i < |InitChecks| ensures Accept(InitChecks[i], args[InitChecks[i].arg]) == Pass {
      if i == 0 {
        assert Accept(InitChecks[0], args["text"]) == Pass;
      } else if i == 1 {
        assert Accept(InitChecks[1], args["position"]) == Pass;
      } else if i == 2 {
        assert Accept(InitChecks[2], args["font"]) == Pass;
      } else if i == 3 {
        assert Accept(InitChecks[3], args["font_size"]) == Pass;
      } else if i == 4 {
        assert Accept(InitChecks[4], args["color"]) == Pass;
      } else {
        assert Accept(InitChecks[5], args["highlight_color"]) == Pass;
      }
    }
  }

  /** With every default, any string constructs: 20-point Arial in white at
      the origin, not highlighted. */
  lemma DefaultsConstruct(s: string)
    ensures New(VStr(s), DefaultPosition, DefaultFontName, DefaultFontSize, DefaultColor, DefaultHighlight)
      == Ok(Text(s, DefaultPosition, TrueType("Arial.ttf", 20), VStr("white"), VNone))
  {
    DefaultsPassGuard(s);
    assert AllInts(DefaultPosition.items);
    assert "Arial" + ".ttf" == "Arial.ttf";
    assert ResolveFont("Arial", IntValue(DefaultFontSize)) == TrueType("Arial.ttf", 20);
  }

  // Rendering ---------------------------------------------------------------

  /** Where the text is drawn: five pixels right of and below `position`. */
  function TextOrigin(t: Text): (int, int)
    requires t.Valid()
  {
    (t.X() + 5, t.Y() + 5)
  }

  /** The highlight rectangle for text of measured size `e`. */
  function HighlightBox(t: Text, e: Extent): DrawCmd
    requires t.Valid()
  {
    Rectangle(t.X(), t.Y(), t.X() + e.width + 10, t.Y() + e.height + 10, t.highlightColor)
  }

  /** The rectangle starts at `position` and frames the drawn text with five
      pixels of padding on every side. */
  lemma HighlightFramesText(t: Text, e: Extent)
    requires t.Valid()
    ensures var box, origin := HighlightBox(t, e), TextOrigin(t);
      && box.x0 == t.X() && box.y0 == t.Y()
      && origin.0 - box.x0 == 5 && origin.1 - box.y0 == 5
      && box.x1 - (origin.0 + e.width) == 5 && box.y1 - (origin.1 + e.height) == 5
  {
  }

  /** `Text.render(draw)`: measure the text; when the highlight colour is
      truthy fill the highlight rectangle with it; then draw the text with
      its colour and font, once, after any rectangle. */
  method Render(t: Text, draw: Surface)
    requires t.Valid()
    modifies draw
    ensures draw.drawn == old(draw.drawn)
      + (if Truthy(t.highlightColor) then [HighlightBox(t, draw.measure(t.text, t.font))] else [])
      + [DrawText(TextOrigin(t).0, TextOrigin(t).1, t.text, t.color, t.font)]
  {
    var size := draw.TextSize(t.text, t.font);
    if Truthy(t.highlightColor) {
      var x, y := t.X(), t.Y();
      draw.FillRectangle(x, y, x + size.width + 10, y + size.height + 10, t.highlightColor);
    }
    draw.Text(t.X() + 5, t.Y() + 5, t.text, t.color, t.font);
  }

  /** The falsy highlight values the type check admits (None, "" and ()) draw
      no rectangle; any other admitted value does. */
  lemma FalsyHighlights(h: PyValue)
    requires IsInstance(h, HighlightSpec)
    ensures !Truthy(h) <==> h == VNone || h == VStr("") || h == VTuple([])
  {
    FinalClass(h, StrClass);
    FinalClass(h, TupleClass);
    FinalClass(h, NoneClass);
  }
}
