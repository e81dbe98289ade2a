/**
 * Effect nodes (pyfx/supers.py) and groups of them (pyfx/effects/group.py).
 *
 * FXNode is abstract in the source and FXGroup is its one concrete subclass
 * in the core; every other subclass is a user effect whose `render` the model
 * cannot see. Both are one class here, told apart by a constant `kind`. A
 * node's own `render` is an abstract call: it is recorded in a `CallLog`,
 * whose `raising` set says which nodes' renders raise.
 */
module Nodes {
  import opened Enums
  import opened Python
  import opened ArgVal
  import opened Imaging

  /** An FXGroup, or a user effect class of the given name. */
  datatype NodeKind = Group | Effect(name: string)

  /** What a node is rendered onto: a Canvas object (by identity) or a
      dispatcher's image. */
  datatype Target = CanvasObj(canvas: object) | DispatcherImage(image: Surface)

  /** One observable call: a node's `render(to)`, or `image.save(path)`. */
  datatype Event = Rendered(node: FXNode, to: Target) | Saved(image: Surface, path: string)

  /** The calls made so far, in order. */
  class CallLog {
    const raising: set<FXNode>
    var events: seq<Event>

    constructor (raising: set<FXNode>)
      ensures this.raising == raising && events == []
    {
      this.raising := raising;
      events := [];
    }

    /** `node.render(to)` on a node whose rendering the model does not see. */
    method Render(node: FXNode, to: Target) returns (o: Outcome)
      modifies this
      ensures events == old(events) + [Rendered(node, to)]
      ensures o == if node in raising then Fail(RenderError) else Pass
    {
      events := events + [Rendered(node, to)];
      o := if node in raising then Fail(RenderError) else Pass;
    }

    /** `image.save(path)`. */
    method Save(image: Surface, path: string)
      modifies this
      ensures events == old(events) + [Saved(image, path)]
    {
      events := events + [Saved(image, path)];
    }
  }

  /** `suffix` renders distinct members of `nodes`, each onto `to`. */
  ghost predicate RendersDistinct(suffix: seq<Event>, nodes: set<FXNode>, to: Target) {
    && (forall i :: 0 <= i < |suffix| ==> suffix[i].Rendered? && suffix[i].node in nodes && suffix[i].to == to)
    && (forall i, j :: 0 <= i < j < |suffix| && suffix[i].Rendered? && suffix[j].Rendered? ==>
          suffix[i].node != suffix[j].node)
  }

  /** `suffix` renders every member of `nodes` onto `to`, each exactly once. */
  ghost predicate RendersEach(suffix: seq<Event>, nodes: set<FXNode>, to: Target) {
    && RendersDistinct(suffix, nodes, to)
    && forall n :: n in nodes ==> exists i :: 0 <= i < |suffix| && suffix[i] == Rendered(n, to)
  }

  const AlignmentParams: seq<string> := ["self", "alignment"]
  const OpacityParams: seq<string> := ["self", "opacity"]
  const NodeParams: seq<string> := ["self", "node"]

  /** `@enforce_type("alignment", Alignment)` on the alignment setter. */
  const AlignmentGuard: Wrapped := Wrapped(AlignmentParams, [TypeCheck("alignment", Class(AlignmentClass), false)])

  /** `@enforce_arg_within("opacity", 0.0, 1.0)` above `@enforce_type("opacity", float)`. */
  const OpacityGuard: Wrapped :=
    Wrapped(OpacityParams, [RangeCheck("opacity", 0.0, 1.0), TypeCheck("opacity", Class(FloatClass), false)])

  /** `@enforce_type("node", FXNode)` on `add` and `remove`. */
  const NodeGuard: Wrapped := Wrapped(NodeParams, [TypeCheck("node", Class(FXNodeClass), false)])

  /** The guards are what the decorator stacks build, with the factories'
      default `strict=False`. */
  lemma GuardsDecorate()
    ensures ApplyDecorators(Undecorated(AlignmentParams),
      [EnforceType(VStr("alignment"), Class(AlignmentClass), VBool(false)).value]) == Ok(AlignmentGuard)
    ensures ApplyDecorators(Undecorated(OpacityParams),
      [EnforceArgWithin(VStr("opacity"), 0.0, 1.0).value,
       EnforceType(VStr("opacity"), Class(FloatClass), VBool(false)).value]) == Ok(OpacityGuard)
    ensures ApplyDecorators(Undecorated(NodeParams),
      [EnforceType(VStr("node"), Class(FXNodeClass), VBool(false)).value]) == Ok(NodeGuard)
  {
    var a := [TypeCheck("alignment", Class(AlignmentClass), false)];
    assert Concat([a]) == a by { assert Concat([a][1..]) == []; }
    assert a + [] == a;
    var n := [TypeCheck("node", Class(FXNodeClass), false)];
    assert Concat([n]) == n by { assert Concat([n][1..]) == []; }
    assert n + [] == n;
    var ds := [EnforceArgWithin(VStr("opacity"), 0.0, 1.0).value,
               EnforceType(VStr("opacity"), Class(FloatClass), VBool(false)).value];
    assert ds[1..] == [[TypeCheck("opacity", Class(FloatClass), false)]];
    assert Concat(ds) == OpacityGuard.checks by {
      assert Concat(ds[1..]) == [TypeCheck("opacity", Class(FloatClass), false)];
    }
  }

  /** What the alignment setter's guard decides: only a member of the
      enumeration passes. */
  function AlignmentOutcome(v: PyValue): (o: Outcome)
    ensures o == Call(AlignmentGuard, map["alignment" := v])
  {
    FinalClass(v, AlignmentClass);
    if v.VMember? then Pass else Fail(TypeError("alignment"))
  }

  /** The opacity guard runs the range check, then the float check. */
  lemma OpacityGuardSteps(v: PyValue)
    ensures Call(OpacityGuard, map["opacity" := v]) ==
      var range := Accept(RangeCheck("opacity", 0.0, 1.0), v);
      if range.Fail? then range else Accept(TypeCheck("opacity", Class(FloatClass), false), v)
  {
    var args := map["opacity" := v];
    var cs := OpacityGuard.checks;
    assert Binds(cs, args) && args["opacity"] == v;
    if Accept(cs[0], v).Fail? {
      FirstFailureRaised(cs, args, 0);
    } else if Accept(cs[1], v).Fail? {
      FirstFailureRaised(cs, args, 1);
    } else {
      assert forall i :: 0 <= i < |cs| ==> Accept(cs[i], args[cs[i].arg]) == Pass;
    }
  }

  /** What the opacity setter's guard decides: the range check first, so a
      non-number is a TypeError and an out-of-range number a ValueError
      whatever its type; only then the float check. */
  function OpacityOutcome(v: PyValue): (o: Outcome)
    ensures o == Call(OpacityGuard, map["opacity" := v])
  {
    FinalClass(v, FloatClass);
    OpacityGuardSteps(v);
    match AsNumber(v)
    case None => Fail(TypeError("opacity"))
    case Some(n) =>
      if !(0.0 <= n <= 1.0) then Fail(ValueError("opacity"))
      else if !v.VFloat? then Fail(TypeError("opacity"))
      else Pass
  }

  /** Only a float in [0.0, 1.0], both ends included, is accepted; an
      in-range int such as 1 or True is a TypeError, an out-of-range float a
      ValueError. */
  lemma OpacityAcceptance(v: PyValue)
    ensures OpacityOutcome(v) == Pass <==> v.VFloat? && 0.0 <= v.f <= 1.0
  {
  }

  /** The boundaries and the cases on either side of each decision. */
  lemma OpacityExamples()
    ensures OpacityOutcome(VFloat(0.0)) == Pass && OpacityOutcome(VFloat(1.0)) == Pass
    ensures OpacityOutcome(VInt(1)) == Fail(TypeError("opacity"))
    ensures OpacityOutcome(VBool(true)) == Fail(TypeError("opacity"))
    ensures OpacityOutcome(VInt(2)) == Fail(ValueError("opacity"))
    ensures OpacityOutcome(VFloat(1.5)) == Fail(ValueError("opacity"))
    ensures OpacityOutcome(VStr("0.5")) == Fail(TypeError("opacity"))
  {
    assert AsNumber(VInt(1)) == Some(1.0);
    assert AsNumber(VBool(true)) == Some(1.0);
    assert AsNumber(VInt(2)) == Some(2.0);
    assert AsNumber(VStr("0.5")) == None;
  }

  /** `isinstance(v, FXNode)`. */
  predicate IsNodeValue(v: PyValue) {
    IsInstance(v, Class(FXNodeClass))
  }

  /** Exactly objects of FXGroup and of user effect subclasses are nodes; a
      Text, a Canvas or any other value is not. */
  lemma NodeInstances(v: PyValue)
    ensures IsNodeValue(v) <==> v.VObj? && (v.cls.FXGroupClass? || v.cls.NodeSubclass?)
    ensures v.VObj? && v.cls == TextClass ==> !IsNodeValue(v)
  {
    assert !IsSubtype(ObjectClass, FXNodeClass);
    assert !IsSubtype(IntClass, FXNodeClass);
    if v.VObj? {
      assert IsRefClass(v.cls);
      if v.cls.FXGroupClass? || v.cls.NodeSubclass? {
        assert Base(v.cls) == FXNodeClass;
        assert IsSubtype(FXNodeClass, FXNodeClass);
        assert IsSubtype(TypeOf(v), FXNodeClass);
      } else {
        assert Base(v.cls) == ObjectClass;
      }
    }
  }

  class FXNode {
    const kind: NodeKind
    var alignment: Alignment
    var opacity: real
    var children: set<FXNode>

    /** The opacity stays in range; only a group has children. */
    predicate Valid()
      reads this
    {
      0.0 <= opacity <= 1.0 && (!kind.Group? ==> children == {})
    }

    /** `type(self)`. */
    function Class(): (c: PyType)
      ensures IsRefClass(c) && IsSubtype(c, FXNodeClass)
    {
      if kind.Group? then FXGroupClass else NodeSubclass(kind.name)
    }

    /** `FXNode.__init__` run by an effect subclass: centre-left, opaque. */
    constructor Effect(name: string)
      ensures kind == NodeKind.Effect(name) && alignment == CenterLeft && opacity == 1.0 && children == {}
      ensures Valid()
    {
      kind := NodeKind.Effect(name);
      alignment := CenterLeft;
      opacity := 1.0;
      children := {};
    }

    /** `FXNode.__init__` followed by `self._nodes = set(nodes)`. */
    constructor Group(nodes: set<FXNode>)
      ensures kind == NodeKind.Group && alignment == CenterLeft && opacity == 1.0 && children == nodes
      ensures Valid()
    {
      kind := NodeKind.Group;
      alignment := CenterLeft;
      opacity := 1.0;
      children := nodes;
    }

    /** `node.alignment = v`: a member of the enumeration is stored; anything
        else raises TypeError and changes nothing. */
    method SetAlignment(v: PyValue) returns (o: Outcome)
      requires Valid()
      modifies this
      ensures o == AlignmentOutcome(v)
      ensures o.Pass? <==> v.VMember?
      ensures o.Fail? ==> o.error == TypeError("alignment")
      ensures alignment == if o.Pass? then v.member else old(alignment)
      ensures opacity == old(opacity) && children == old(children)
      ensures Valid()
    {
      o := AlignmentOutcome(v);
      if o.Pass? {
        alignment := v.member;
      }
    }

    /** `node.opacity = v`: a float in [0.0, 1.0] is stored; anything else
        raises and changes nothing. */
    method SetOpacity(v: PyValue) returns (o: Outcome)
      requires Valid()
      modifies this
      ensures o == OpacityOutcome(v)
      ensures o.Pass? <==> v.VFloat? && 0.0 <= v.f <= 1.0
      ensures opacity == if o.Pass? then v.f else old(opacity)
      ensures alignment == old(alignment) && children == old(children)
      ensures Valid()
    {
      o := OpacityOutcome(v);
      OpacityAcceptance(v);
      if o.Pass? {
        opacity := v.f;
      }
    }

    /** `group.contains(v)`: plain membership, no validation. Any value may
        be asked about; a value that is not a node is simply not a child. */
    predicate Contains(v: PyValue)
      requires kind.Group?
      reads this
      ensures !v.VObj? ==> !Contains(v)
      ensures NodeTagged(v) ==> (Contains(v) <==> IsNodeValue(v) && NodeOf(v) in children)
    {
      NodeInstances(v);
      v.VObj? && v.ref is FXNode && v.ref as FXNode in children
    }

    /** `group.add(v)`: TypeError for a non-node, DuplicateChildError for a
        child already present; otherwise the node joins the children. */
    method Add(v: PyValue) returns (o: Outcome)
      requires kind.Group? && Valid() && NodeTagged(v)
      modifies this
      ensures !IsNodeValue(v) ==> o == Fail(TypeError("node")) && children == old(children)
      ensures IsNodeValue(v) && NodeOf(v) in old(children) ==>
        o == Fail(DuplicateChildError) && children == old(children)
      ensures IsNodeValue(v) && NodeOf(v) !in old(children) ==>
        o == Pass && children == old(children) + {NodeOf(v)}
      ensures o.Pass? ==> Contains(v)
      ensures alignment == old(alignment) && opacity == old(opacity)
      ensures Valid()
    {
      var guard := Call(NodeGuard, map["node" := v]);
      assert guard.Pass? <==> IsNodeValue(v);
      if guard.Fail? {
        return guard;
      }
      var node := NodeOf(v);
      if node in children {
        return Fail(DuplicateChildError);
      }
      children := children + {node};
      o := Pass;
    }

    /** `group.remove(v)`: TypeError for a non-node; otherwise the node is no
        longer a child, whether or not it was one. */
    method Remove(v: PyValue) returns (o: Outcome)
      requires kind.Group? && Valid() && NodeTagged(v)
      modifies this
      ensures o.Pass? <==> IsNodeValue(v)
      ensures o.Fail? ==> o == Fail(TypeError("node")) && children == old(children)
      ensures o.Pass? ==> children == old(children) - {NodeOf(v)} && !Contains(v)
      ensures alignment == old(alignment) && opacity == old(opacity)
      ensures Valid()
    {
      var guard := Call(NodeGuard, map["node" := v]);
      assert guard.Pass? <==> IsNodeValue(v);
      if guard.Fail? {
        return guard;
      }
      var node := NodeOf(v);
      if node in children {
        children := children - {node};
      }
      o := Pass;
    }

    /** `group.render(to)`: `render(to)` on each child once, in no particular
        order, stopping at the first that raises. The children are not
        changed. */
    method Render(to: Target, log: CallLog) returns (o: Outcome)
      requires kind.Group?
      modifies log
      ensures |log.events| >= |old(log.events)| && log.events[..|old(log.events)|] == old(log.events)
      ensures o.Pass? <==> children !! log.raising
      ensures o.Pass? ==> RendersEach(log.events[|old(log.events)|..], children, to)
      ensures o.Fail? ==>
        var suffix := log.events[|old(log.events)|..];
        && o == Fail(RenderError)
        && RendersDistinct(suffix, children, to) && suffix != []
        && suffix[|suffix| - 1].node in log.raising
        && forall i :: 0 <= i < |suffix| - 1 ==> suffix[i].node !in log.raising
    {
      var start := log.events;
      var todo := children;
      var done: set<FXNode> := {};
      while todo != {}
        invariant todo + done == children && todo !! done
        invariant done !! log.raising
        invariant |log.events| >= |start| && log.events[..|start|] == start
        invariant RendersEach(log.events[|start|..], done, to)
        decreases todo
      {
        var node :| node in todo;
        ghost var before := log.events[|start|..];
        var r := log.Render(node, to);
        assert log.events[|start|..] == before + [Rendered(node, to)];
        if r.Fail? {
          var suffix := log.events[|start|..];
          assert suffix[|suffix| - 1].node == node;
          return r;
        }
        todo := todo - {node};
        done := done + {node};
        assert RendersEach(log.events[|start|..], done, to) by {
          var suffix := log.events[|start|..];
          forall n | n in done ensures exists i :: 0 <= i < |suffix| && suffix[i] == Rendered(n, to) {
            if n == node {
              assert suffix[|before|] == Rendered(n, to);
            } else {
              var i :| 0 <= i < |before| && before[i] == Rendered(n, to);
              assert suffix[i] == Rendered(n, to);
            }
          }
        }
      }
      o := Pass;
    }
  }

  /** Values tagged with a node class are FXNode objects of that class, and
      no other value is: the link between a Python value and the object it
      stands for. */
  predicate NodeTagged(v: PyValue) {
    v.VObj? ==>
      ((v.cls.FXGroupClass? || v.cls.NodeSubclass?) <==> v.ref is FXNode)
      && (v.ref is FXNode ==> (v.ref as FXNode).Class() == v.cls)
  }

  /** The node a node value stands for. */
  function NodeOf(v: PyValue): (n: FXNode)
    requires IsNodeValue(v) && NodeTagged(v)
    ensures v == VObj(n.Class(), n)
  {
    NodeInstances(v);
    v.ref as FXNode
  }

  /** The set of nodes the given node values stand for. */
  ghost function NodesOf(args: seq<PyValue>): set<FXNode>
    requires forall i :: 0 <= i < |args| ==> IsNodeValue(args[i]) && NodeTagged(args[i])
  {
    set i | 0 <= i < |args| :: NodeOf(args[i])
  }

  /** `FXGroup(*args)`: TypeError unless every argument is a node, checked
      before anything is created; otherwise a fresh, centre-left, opaque
      group whose children are the set of the arguments. */
  method NewGroup(args: seq<PyValue>) returns (r: Result<FXNode>)
    requires forall i :: 0 <= i < |args| ==> NodeTagged(args[i])
    ensures r.Err? <==> exists i :: 0 <= i < |args| && !IsNodeValue(args[i])
    ensures r.Err? ==> r.error == TypeError("nodes")
    ensures r.Ok? ==>
      && fresh(r.value) && r.value.kind == NodeKind.Group && r.value.Valid()
      && r.value.alignment == CenterLeft && r.value.opacity == 1.0
      && r.value.children == NodesOf(args)
  {
    var nodes: set<FXNode> := {};
    var i := 0;
    while i < |args|
      invariant 0 <= i <= |args|
      invariant forall j :: 0 <= j < i ==> IsNodeValue(args[j])
      invariant nodes == set j | 0 <= j < i :: NodeOf(args[j])
    {
      if !IsNodeValue(args[i]) {
        return Err(TypeError("nodes"));
      }
      nodes := nodes + {NodeOf(args[i])};
      i := i + 1;
    }
    var g := new FXNode.Group(nodes);
    r := Ok(g);
  }

  /** Repeating an argument adds no child: duplicates collapse. */
  lemma DuplicatesCollapse(args: seq<PyValue>, k: nat)
    requires k < |args|
    requires forall i :: 0 <= i < |args| ==> IsNodeValue(args[i]) && NodeTagged(args[i])
    ensures var more := args + [args[k]];
      (forall i :: 0 <= i < |more| ==> IsNodeValue(more[i]) && NodeTagged(more[i]))
      && NodesOf(more) == NodesOf(args)
  {
    var more := args + [args[k]];
    assert forall i :: 0 <= i < |args| ==> more[i] == args[i];
    assert more[|args|] == args[k];
    assert NodesOf(more) == NodesOf(args) by {
      forall n | n in NodesOf(more) ensures n in NodesOf(args) {
        var i :| 0 <= i < |more| && n == NodeOf(more[i]);
        if i == |args| {
          assert n == NodeOf(args[k]);
        } else {
          assert n == NodeOf(args[i]);
        }
      }
      forall n | n in NodesOf(args) ensures n in NodesOf(more) {
        var i :| 0 <= i < |args| && n == NodeOf(args[i]);
        assert n == NodeOf(more[i]);
      }
    }
  }
}
