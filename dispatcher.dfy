/**
 * The Dispatcher (pyfx/dispatcher.py): it owns one image, created with the
 * canvas's size and background, and exports the canvas's scene to a file.
 * Saving is the `Saved` event of the call log; the encoder and the file
 * system are not modelled.
 */
module Dispatch {
  import opened Python
  import opened ArgVal
  import opened Imaging
  import opened Nodes
  import opened Containers

  const InitParams: seq<string> := ["self", "canvas"]
  const ExportParams: seq<string> := ["self", "output_path"]

  /** `@enforce_type("canvas", Canvas)` on `__init__`. */
  const InitGuard: Wrapped := Wrapped(InitParams, [TypeCheck("canvas", Class(CanvasClass), false)])

  /** `@enforce_type("output_path", str)` on `export`. */
  const ExportGuard: Wrapped := Wrapped(ExportParams, [TypeCheck("output_path", Class(StrClass), false)])

  /** The guards are what the decorators build. */
  lemma GuardsDecorate()
    ensures ApplyDecorators(Undecorated(InitParams),
      [EnforceType(VStr("canvas"), Class(CanvasClass), VBool(false)).value]) == Ok(InitGuard)
    ensures ApplyDecorators(Undecorated(ExportParams),
      [EnforceType(VStr("output_path"), Class(StrClass), VBool(false)).value]) == Ok(ExportGuard)
  {
    var c := [TypeCheck("canvas", Class(CanvasClass), false)];
    assert Concat([c]) == c by { assert Concat([c][1..]) == []; }
    assert c + [] == c;
    var p := [TypeCheck("output_path", Class(StrClass), false)];
    assert Concat([p]) == p by { assert Concat([p][1..]) == []; }
    assert p + [] == p;
  }

  /** Only Canvas objects pass the constructor's guard; only strings pass
      the export guard. */
  lemma GuardsAccept(v: PyValue)
    ensures Call(InitGuard, map["canvas" := v]).Pass? <==> v.VObj? && v.cls == CanvasClass
    ensures Call(InitGuard, map["canvas" := v]).Fail? ==> Call(InitGuard, map["canvas" := v]) == Fail(TypeError("canvas"))
    ensures Call(ExportGuard, map["output_path" := v]).Pass? <==> v.VStr?
    ensures Call(ExportGuard, map["output_path" := v]).Fail? ==>
      Call(ExportGuard, map["output_path" := v]) == Fail(TypeError("output_path"))
  {
    FinalClass(v, StrClass);
    assert !IsSubtype(ObjectClass, CanvasClass);
    assert !IsSubtype(IntClass, CanvasClass);
    assert !IsSubtype(FXNodeClass, CanvasClass);
  }

  class Dispatcher {
    const canvas: Canvas
    const image: Surface

    /** The image has the canvas's size and background and is not the
        canvas's own surface. */
    predicate Valid() {
      canvas.Valid() && image != canvas.surface
      && image.width == canvas.Width() && image.height == canvas.Height()
      && image.background == canvas.bgColor
    }

    /** The body of `__init__`: the image is created here, once. */
    constructor (canvas: Canvas, measure: Metrics)
      requires canvas.Valid()
      ensures this.canvas == canvas
      ensures fresh(image) && image.drawn == [] && image.measure == measure
      ensures Valid()
    {
      this.canvas := canvas;
      image := new Surface(canvas.Width(), canvas.Height(), canvas.bgColor, measure);
    }

    /** `export(output_path)`, with the group branch iterating the root's
        children: TypeError for a non-string path before anything is
        rendered; a group root has each child rendered once onto the Canvas
        object (the root itself is not rendered); any other root is rendered
        once onto the dispatcher's image. The image is saved once, last, and
        only when no render raised. */
    method Export(outputPath: PyValue, log: CallLog) returns (o: Outcome)
      requires Valid()
      modifies log
      ensures |log.events| >= |old(log.events)| && log.events[..|old(log.events)|] == old(log.events)
      ensures !outputPath.VStr? ==> o == Fail(TypeError("output_path")) && log.events == old(log.events)
      ensures outputPath.VStr? && canvas.root.kind.Group? ==>
        var suffix := log.events[|old(log.events)|..];
        && (o.Pass? <==> canvas.root.children !! log.raising)
        && (o.Pass? ==>
              suffix != [] && suffix[|suffix| - 1] == Saved(image, outputPath.s)
              && RendersEach(suffix[..|suffix| - 1], canvas.root.children, CanvasObj(canvas)))
        && (o.Fail? ==> o == Fail(RenderError) && RendersDistinct(suffix, canvas.root.children, CanvasObj(canvas)))
      ensures outputPath.VStr? && !canvas.root.kind.Group? ==>
        && o == (if canvas.root in log.raising then Fail(RenderError) else Pass)
        && log.events == old(log.events) + [Rendered(canvas.root, DispatcherImage(image))]
             + (if o.Pass? then [Saved(image, outputPath.s)] else [])
    {
      var guard := Call(ExportGuard, map["output_path" := outputPath]);
      GuardsAccept(outputPath);
      if guard.Fail? {
        return guard;
      }
      ghost var start := log.events;
      if canvas.root.kind.Group? {
        o := canvas.root.Render(CanvasObj(canvas), log);
      } else {
        o := log.Render(canvas.root, DispatcherImage(image));
      }
      if o.Pass? {
        ghost var rendered := log.events;
        log.Save(image, outputPath.s);
        assert log.events[|start|..] == rendered[|start|..] + [Saved(image, outputPath.s)];
      }
    }

    /** `export(output_path)` as the source states it: FXGroup defines no
        `__iter__`, so `for node in root` raises TypeError ('FXGroup' object
        is not iterable) for a group root before anything is rendered or
        saved. Other roots are handled as in `Export`. */
    method ExportAsWritten(outputPath: PyValue, log: CallLog) returns (o: Outcome)
      requires Valid()
      modifies log
      ensures !outputPath.VStr? ==> o == Fail(TypeError("output_path")) && log.events == old(log.events)
      ensures outputPath.VStr? && canvas.root.kind.Group? ==>
        o == Fail(NotIterable(FXGroupClass)) && log.events == old(log.events)
      ensures outputPath.VStr? && !canvas.root.kind.Group? ==>
        && o == (if canvas.root in log.raising then Fail(RenderError) else Pass)
        && log.events == old(log.events) + [Rendered(canvas.root, DispatcherImage(image))]
             + (if o.Pass? then [Saved(image, outputPath.s)] else [])
    {
      var guard := Call(ExportGuard, map["output_path" := outputPath]);
      GuardsAccept(outputPath);
      if guard.Fail? {
        return guard;
      }
      if canvas.root.kind.Group? {
        return Fail(NotIterable(canvas.root.Class()));
      }
      o := log.Render(canvas.root, DispatcherImage(image));
      if o.Pass? {
        log.Save(image, outputPath.s);
      }
    }
  }

  /** `Dispatcher(v)`: TypeError unless `v` is a Canvas; otherwise a
      dispatcher over that canvas with a fresh, blank image of its size. */
  method NewDispatcher(v: PyValue, measure: Metrics) returns (r: Result<Dispatcher>)
    requires CanvasTagged(v)
    ensures r.Err? <==> !(v.VObj? && v.cls == CanvasClass)
    ensures r.Err? ==> r.error == TypeError("canvas")
    ensures r.Ok? ==>
      && fresh(r.value) && fresh(r.value.image) && r.value.Valid()
      && r.value.canvas == v.ref && r.value.image.drawn == []
  {
    var guard := Call(InitGuard, map["canvas" := v]);
    GuardsAccept(v);
    if guard.Fail? {
      return Err(guard.error);
    }
    var d := new Dispatcher(v.ref as Canvas, measure);
    r := Ok(d);
  }
}
