# pyfx scene graph, modelled in Dafny

pyfx composes visual effects into a small scene graph and exports it as an
image. An effect node (`FXNode`) carries an alignment and an opacity, both
behind validating setters. A group (`FXGroup`) holds a set of child nodes.
`Text` draws a string, with an optional highlight rectangle behind it. A
`Canvas` ties a root node to a size and a background colour. A `Dispatcher`
renders the canvas's root and saves its own image. The argument validators
of `pyfx/argval/argval.py` guard the setters, `add` and `remove`, `export`,
and the `Text`, `Canvas` and `Dispatcher` constructors. `FXGroup.__init__`
checks its arguments with a loop of its own (pyfx/effects/group.py:18-20),
and `FXNode.__init__` (pyfx/supers.py:14-18) checks nothing.

This project models that core and proves what it promises:

- which arguments each guard accepts, and in what order the guards report;
- that the node fields keep their invariant;
- that group operations are set union and set difference;
- that a group renders each child exactly once;
- how `Text` draws, and its geometry;
- what `export` renders, onto what, and when it saves.

Modules, one per source file:

| file | module | source |
|---|---|---|
| `enums.dfy` | `Enums` | `pyfx/enums.py` |
| `python.dfy` | `Python` | the Python semantics the core relies on: classes and `isinstance`, values, truthiness, exceptions |
| `argval.dfy` | `ArgVal` | `pyfx/argval/argval.py` |
| `imaging.dfy` | `Imaging` | an abstract stand-in for Pillow: a surface that records the drawing commands issued to it |
| `text.dfy` | `TextEffect` | `pyfx/effects/text.py` |
| `nodes.dfy` | `Nodes` | `pyfx/supers.py` and `pyfx/effects/group.py` |
| `canvas.dfy` | `Containers` | `pyfx/containers/canvas.py` |
| `dispatcher.dfy` | `Dispatch` | `pyfx/dispatcher.py` |

How the model represents the source:

- **Python values.** A Python value is a `PyValue`. An object is a class tag
  together with a Dafny object that gives it its identity.
- **Classes.** Classes form a closed hierarchy (`PyType`) in which `bool`
  derives from `int`, and FXGroup and user effects derive from FXNode.
  `isinstance` is the reflexive, transitive subtype test on this hierarchy.
- **Tagged values.** The predicates `NodeTagged` and `CanvasTagged` link a
  tagged value to the Dafny object it stands for.
- **Decorators.** A decorator is the list of checks its wrapper runs. A
  decorated function is its parameter names and its checks, outermost first.
- **Calls.** A call is a map from parameter names to values, with the
  defaults already applied. So a default value is exactly what gets
  validated.
- **Errors.** An exception is an `Error` value. It names the argument
  concerned, not the message text.
- **FXNode.** FXNode is one class whose constant `kind` tells a group from a
  user effect. Groups are the only concrete FXNode subclass in the core.
  `alignment` and `opacity` are its fields. The Python getters return those
  fields, so reading a field is the getter.
- **Rendering.** A node's own `render` is code the model cannot see. A call
  to it is recorded as an event in a `CallLog`. The log's `raising` set names
  the nodes whose render raises. `image.save(path)` is also an event in the
  log.
- **Text.** `Text` is a datatype: its fields are set once, by the validating
  constructor.
- **Canvas.** `Canvas` is a class whose fields are all constants. The source
  has no setters, so nothing can change them after construction.
- **Dispatcher.** The dispatcher's image is a constant field created in the
  constructor and never replaced or cleared. Every export therefore draws on
  and saves the same image.

Behaviour of the code that a reader might not expect, and that the model
follows:

- **The target of each export branch.** A group root's children are
  rendered onto the Canvas object itself, and a leaf root is rendered onto
  the dispatcher's image (pyfx/dispatcher.py:33-37).
- **Opacity checks.** The range check runs first and the float type check
  second (pyfx/supers.py:52-53). So an in-range `int` such as `1` (or
  `True`) is rejected with TypeError, and a non-number fails the range
  comparison itself, also with TypeError.
- **Text is not a node.** `Text` does not derive from FXNode
  (pyfx/effects/text.py:8). A Text object is therefore rejected as a Canvas
  root or a group child (`Containers.TextIsNotARoot`, `Nodes.NodeInstances`).
- **`remove` can raise.** It raises TypeError for an argument that is not
  an FXNode (pyfx/effects/group.py:37); a node that is not a child is
  ignored silently.
- **Groups do not iterate.** FXGroup defines no `__iter__` (see Findings).
- **The dispatcher's import.** pyfx/dispatcher.py:7 imports `FXGroup` from
  `.supers`, which does not define it. As written, the module therefore
  fails to import. The model assumes that the intended class is the FXGroup
  of pyfx/effects/group.py.

## Model

| member | source | states |
|---|---|---|
| `Enums.Value` | pyfx/enums.py:9-17 | `auto()` gives every member a value between 1 and 9 |
| `Enums.At` | pyfx/enums.py:9-17 | the member at a row and column is in that row and that column |
| `Enums.MembersAreAllDistinct` | pyfx/enums.py:6-17 | the enumeration has exactly nine members; every value of the type is one of them; they are pairwise distinct |
| `Enums.ValuesFollowDeclarationOrder` | pyfx/enums.py:9-17 | the i-th declared member has value i + 1, from TOP_LEFT = 1 to BOTTOM_RIGHT = 9 |
| `Enums.ValueInjective` | pyfx/enums.py:9-17 | two members have the same `auto()` value iff they are the same member |
| `Enums.GridIsBijective` | pyfx/enums.py:9-17 | each member is exactly one (vertical, horizontal) cell, each cell is exactly one member, and centre-centre is plain CENTER |
| `Python.SubtypeReflexive` | pyfx/argval/argval.py:50 | every class is a subclass of itself, so `isinstance` accepts a value of exactly the named class |
| `Python.SubtypeTransitive` | pyfx/argval/argval.py:50 | a subclass of a subclass is a subclass, so `isinstance` accepts instances of indirect subclasses |
| `Python.SubtypeAntisymmetric` | pyfx/argval/argval.py:50 | two classes that are each other's subclass are the same class |
| `Python.IntInstances` | pyfx/effects/text.py:45 | among the modelled values, `isinstance(v, int)` holds exactly for ints and bools |
| `Python.FinalClass` | pyfx/effects/text.py:11-16 | among the modelled values, for `str`, `tuple`, `float`, `NoneType` and the enumeration, `isinstance` is an exact type test |
| `ArgVal.Accept` | pyfx/argval/argval.py:43-54 | a failed type check raises TypeError naming the argument; a failed range check raises TypeError or ValueError naming it |
| `ArgVal.AcceptAsWritten` | pyfx/argval/argval.py:50-54 | as written, a check passes exactly when `Accept` passes, and its exception differs from `Accept`'s exactly when a check against a tuple of classes fails |
| `ArgVal.TupleSpecFailureMisreported` | pyfx/argval/argval.py:50-54 | `color=0` checked against `(str, tuple)` raises AttributeError as written, where TypeError("color") is meant |
| `ArgVal.StrictAcceptsLess` | pyfx/argval/argval.py:43-54 | a value the strict check accepts is accepted by the non-strict check; a strict check against a tuple of classes always raises TypeError |
| `ArgVal.SubclassSeparatesStrictness` | pyfx/argval/argval.py:43-54 | `True` passes the non-strict `int` check and fails the strict one |
| `ArgVal.RangeCheckInclusive` | pyfx/argval/argval.py:164-167 | a number passes iff lower <= value <= upper, both ends included; outside the range it is ValueError; a non-number is TypeError |
| `ArgVal.EnforceType` | pyfx/argval/argval.py:19-26 | the factory raises TypeError("arg_name") for a non-str name, then TypeError("strict") for a non-bool `strict`; otherwise it returns one type check |
| `ArgVal.EnforceArgWithin` | pyfx/argval/argval.py:144-147 | the factory raises TypeError("arg_name") for a non-str name; otherwise it returns one range check with those bounds |
| `ArgVal.EnforceTypes` | pyfx/argval/argval.py:63-130 | `enforce_types` / `enforce_types_strict` give one check per type-map entry, in the map's order, with the given strictness |
| `ArgVal.Decorate` | pyfx/argval/argval.py:28-34 | decoration succeeds iff every checked name is a parameter; the new checks then run before those already in place; on failure it raises ValueError naming the first checked name, in order, that is not a parameter |
| `ArgVal.ApplyDecorators` | pyfx/argval/argval.py:28-34 | a stack of decorators succeeds iff every checked name is a parameter; the checks then run top decorator first, and the parameters are preserved; on failure the error is that of the lowest decorator that fails, every decorator below it having succeeded |
| `ArgVal.RunChecks` | pyfx/argval/argval.py:36-56 | the wrapper passes iff every check passes; on failure the raised exception is that of a check all of whose predecessors passed |
| `ArgVal.FirstFailureRaised` | pyfx/argval/argval.py:36-56 | the exception raised is that of the first failing check |
| `ArgVal.OuterChecksRunFirst` | pyfx/supers.py:52-53 | with stacked decorators, the outer decorator's failure is raised, and the inner checks decide only when the outer ones pass |
| `ArgVal.Invoke` | pyfx/argval/argval.py:36-56 | when every check accepts its argument, the call's result is the wrapped function's result on the same arguments; otherwise it raises the exception of the first check that fails |
| `ArgVal.InvokeSkipsBodyOnFailure` | pyfx/argval/argval.py:56 | the wrapped function runs with the original arguments iff every check passes, and its result is returned unchanged; otherwise the body is not consulted and the first failure is raised |
| `ArgVal.EnforceTypesPassIff` | pyfx/argval/argval.py:83-89 | `enforce_types` (or its strict form) passes iff every entry of the type map accepts its argument |
| `TextEffect.InitGuardDecorates` | pyfx/effects/text.py:11-16 | the six `enforce_type` factories, applied as the decorator stack, all name parameters of `__init__`, so decoration succeeds, with the checks in order text, position, font, font_size, color, highlight_color |
| `TextEffect.AllInts` | pyfx/effects/text.py:44-46 | the loop accepts iff every component is an int |
| `TextEffect.ResolveFont` | pyfx/effects/text.py:50-54 | a non-empty name loads `name + ".ttf"`, an empty one the default font, both at the requested size |
| `TextEffect.New` | pyfx/effects/text.py:11-56 | a failed type check's error is raised; once the type checks pass, construction succeeds iff the position has exactly two int components, and fails otherwise with ValueError("position"); on success, every stored field is the argument given and the font is the resolved font |
| `TextEffect.InitTypeChecksInOrder` | pyfx/effects/text.py:11-16 | the TypeError raised names the first argument, in decorator order, that fails its check, whatever the later arguments are |
| `TextEffect.InitGuardPasses` | pyfx/effects/text.py:11-14 | once the guard passes, text and font are strings, position is a tuple and font_size an int |
| `TextEffect.DefaultsPassGuard` | pyfx/effects/text.py:17-25 | the default arguments, with any text, pass every type check |
| `TextEffect.DefaultsConstruct` | pyfx/effects/text.py:17-56 | with every default, the text is 20-point Arial in white at (0, 0), not highlighted |
| `TextEffect.HighlightFramesText` | pyfx/effects/text.py:117-129 | the highlight rectangle starts at `position` and extends 5 pixels past the drawn text on every side |
| `TextEffect.Render` | pyfx/effects/text.py:115-129 | rendering appends, in order, the rectangle `[x, y, x+w+10, y+h+10]` filled with the highlight colour (only if it is truthy), then the text once at (x+5, y+5) in its colour and font |
| `TextEffect.FalsyHighlights` | pyfx/effects/text.py:117 | among the highlight values the type check admits, exactly None, "" and () draw no rectangle |
| `Nodes.CallLog.Render` | pyfx/supers.py:63-72 | an abstract render call is recorded once, and it raises exactly for the nodes in `raising` |
| `Nodes.GuardsDecorate` | pyfx/supers.py:30-61 | the alignment, opacity and add/remove guards are what their decorator stacks build, with opacity's range check outermost |
| `Nodes.AlignmentOutcome` | pyfx/supers.py:31 | this table of the alignment guard's answers is exactly what the decorated setter does |
| `Nodes.OpacityGuardSteps` | pyfx/supers.py:52-53 | the opacity guard runs the range check, and the float check only if the range check passed |
| `Nodes.OpacityOutcome` | pyfx/supers.py:52-53 | this table of the opacity guard's answers (non-number: TypeError; out of range: ValueError; in-range non-float: TypeError) is exactly what the decorated setter does |
| `Nodes.OpacityAcceptance` | pyfx/supers.py:51-61 | opacity accepts exactly a float v with 0.0 <= v <= 1.0 |
| `Nodes.OpacityExamples` | pyfx/supers.py:52-53 | 0.0 and 1.0 are accepted; int 1 and True raise TypeError; 2 and 1.5 raise ValueError; "0.5" raises TypeError |
| `Nodes.NodeInstances` | pyfx/effects/group.py:18-22 | `isinstance(v, FXNode)` holds exactly for FXGroup and user effect objects; a Text object is not an FXNode |
| `Nodes.FXNode.Effect` | pyfx/supers.py:14-18 | a new effect node has alignment CENTER_LEFT, opacity 1.0 and no children |
| `Nodes.FXNode.Group` | pyfx/effects/group.py:23 | a new group starts with the FXNode defaults, and its children are the given set |
| `Nodes.FXNode.SetAlignment` | pyfx/supers.py:30-39 | an Alignment member is stored, so reading it back returns it; anything else raises TypeError and leaves the field unchanged; opacity and children never change; the invariant is kept |
| `Nodes.FXNode.SetOpacity` | pyfx/supers.py:51-61 | a float in [0.0, 1.0] is stored, so reading it back returns it; anything else raises and leaves the field unchanged; alignment and children never change; opacity stays in [0.0, 1.0] |
| `Nodes.FXNode.Add` | pyfx/effects/group.py:25-35 | a non-node raises TypeError and a present child raises DuplicateChildError, both leaving the children unchanged; otherwise the children become old ∪ {node} and `contains(node)` then holds |
| `Nodes.FXNode.Remove` | pyfx/effects/group.py:37-46 | a non-node raises TypeError and leaves the children unchanged; any node, present or not, leaves children = old − {node}, and `contains(node)` is then false |
| `Nodes.FXNode.Contains` | pyfx/effects/group.py:48-57 | `contains` never raises; a value that is not an object is not a child; for a value whose class tag matches its object, it holds iff the value is a node and that node is one of the children |
| `Nodes.FXNode.Render` | pyfx/effects/group.py:59-67 | it passes iff no child raises, and then renders every child onto `to` exactly once; on failure the distinct children rendered so far end with the one that raised; nothing is removed from or added to the log's earlier events |
| `Nodes.NewGroup` | pyfx/effects/group.py:11-23 | TypeError iff some argument is not an FXNode, raised before any group exists; otherwise a fresh group, centre-left and opaque, whose children are exactly the set of the arguments |
| `Nodes.DuplicatesCollapse` | pyfx/effects/group.py:23 | repeating an argument adds no child |
| `Containers.InitGuardDecorates` | pyfx/containers/canvas.py:12-15 | the three decorators name parameters of `__init__`, so decoration succeeds, and their checks run in the order bg_color, size, root |
| `Containers.InitGuardOrder` | pyfx/containers/canvas.py:12-14 | the guard raises TypeError for bg_color (not a str or tuple), else for size (not a tuple), else for root (not an FXNode), else it passes |
| `Containers.DimsCheck` | pyfx/containers/canvas.py:28-30 | the loop passes iff every dimension is a positive int (a bool counts as an int); otherwise it raises ValueError |
| `Containers.SizeCheck` | pyfx/containers/canvas.py:26-30 | the size is accepted iff it has exactly two components, both positive ints; otherwise ValueError |
| `Containers.Validate` | pyfx/containers/canvas.py:12-30 | the type checks run in decorator order, and the size checks only after them; everything passes iff bg_color is a str or tuple, root is an FXNode and size is a pair of positive ints |
| `Containers.DefaultsValidate` | pyfx/containers/canvas.py:15 | the default size (1280, 720) and bg_color "black" are accepted with any root node |
| `Containers.SizeExamples` | pyfx/containers/canvas.py:26-30 | (5,) and (1, 2, 3) are rejected for arity; (0, 5), (5, -1) and (5, 5.0) for a dimension; (100, 100) and (True, True) are accepted |
| `Containers.BackgroundCheckedFirst` | pyfx/containers/canvas.py:12 | an int background colour is reported first, whatever the other arguments are |
| `Containers.TextIsNotARoot` | pyfx/containers/canvas.py:14 | a Text object is rejected as the root with TypeError |
| `Containers.Canvas.constructor` | pyfx/containers/canvas.py:32-36 | the fields are exactly the arguments, and a fresh blank surface of that size and background is allocated |
| `Containers.NewCanvas` | pyfx/containers/canvas.py:12-66 | it raises the first failing check's error, with no canvas created; otherwise a fresh canvas whose `root`, `size` and `bg_color` are exactly the arguments, with a fresh surface |
| `Dispatch.GuardsDecorate` | pyfx/dispatcher.py:13-25 | the constructor and `export` guards are what their decorators build |
| `Dispatch.GuardsAccept` | pyfx/dispatcher.py:13-25 | the constructor accepts exactly Canvas objects and `export` exactly strings, and otherwise raises TypeError naming the argument |
| `Dispatch.Dispatcher.constructor` | pyfx/dispatcher.py:21-23 | a fresh, blank image with the canvas's size and background, distinct from the canvas's own surface |
| `Dispatch.NewDispatcher` | pyfx/dispatcher.py:13-23 | TypeError("canvas") iff the argument is not a Canvas; otherwise a dispatcher over that canvas with a fresh blank image |
| `Dispatch.Dispatcher.Export` | pyfx/dispatcher.py:25-39 | a non-str path raises TypeError before anything is rendered. A group root has each child rendered exactly once onto the Canvas object; the root itself is not rendered. Otherwise the root is rendered once onto the dispatcher's image. Only when no render raised is one save of the image to the path appended, after every render |
| `Dispatch.Dispatcher.ExportAsWritten` | pyfx/dispatcher.py:25-39 | as written: for a group root, iterating the root raises TypeError ('FXGroup' object is not iterable) before anything is rendered or saved; leaf roots behave as in `Export` |

## Findings

| source | as written | input that shows it | evidently intended | confidence | as-written member | corrected member |
|---|---|---|---|---|---|---|
| pyfx/dispatcher.py:33-35 | `for node in self._canvas.root` iterates an FXGroup, but FXGroup defines no `__iter__` (pyfx/effects/group.py:8-67 keeps its children in the private `_nodes`) | a Canvas whose root is `FXGroup(effect)`, then `export("out.png")`: TypeError, the object is not iterable; nothing is rendered or saved | iterate over the group's children and render each onto the Canvas object | high, not executed | `Dispatch.Dispatcher.ExportAsWritten` | `Dispatch.Dispatcher.Export` |
| pyfx/argval/argval.py:50-54 | the TypeError message formats `type_.__name__`, and a tuple of classes has no `__name__` | `Text("hi", color=0)`, or `Canvas(root, bg_color=0)`: the check against `(str, tuple)` fails, and building the message raises AttributeError | TypeError naming the argument | high, not executed | `ArgVal.AcceptAsWritten` | `ArgVal.Accept` |

The rest of the model uses the corrected members. `TextEffect.New` and
`Containers.Validate` report a rejected `color`, `highlight_color` or
`bg_color` as TypeError, as intended. `ArgVal.TupleSpecFailureMisreported`
shows both exceptions for the same input. Strict checks against a tuple of
classes hit the same message defect at pyfx/argval/argval.py:44-48.

## Left out

- Pixels, font files and encoders are not modelled. A surface records the
  rectangle and text commands issued to it. Text measurement is an
  uninterpreted function. A font is its file name (or the default) and
  size, and a save is an event in the call log. A font that fails to load
  (Pillow's OSError) is not modelled.
- Pillow 10 removed `draw.textsize` (pyfx/effects/text.py:115). The model
  takes it to return the measured extent.
- The background colour passed to Pillow, `[*bg_color, 1]`
  (pyfx/containers/canvas.py:35, pyfx/dispatcher.py:22), is not modelled.
  It is broken for string colours, the default "black" included. The model
  gives the surface the colour as passed.
- What a user effect's `render` does is not modelled, because its code is
  not part of the core. In particular, what it draws on the dispatcher's
  image is not modelled; its call is recorded instead. Only Text is
  modelled as drawing, and Text is not an FXNode. `Dispatch.Dispatcher.Export`
  therefore changes no surface in the model.
- Nested groups are not expanded: a render call on a child that is itself
  a group is recorded as one call. The model does not recurse through the
  heap.
- `Nodes.FXNode.Render`: the order in which children are rendered is
  unspecified in the source, and the model chooses it arbitrarily
  (`:|`). It proves that each child is rendered once, not any particular
  order.
- The reflection the validators rely on (`inspect.signature`, `bind`,
  `apply_defaults`, `functools.wraps`) is not modelled. A call arrives as a
  map from parameter names to values, with the defaults applied. A call
  that cannot bind (a wrong number of arguments) is not modelled.
- Floating point is modelled as `real`: NaN and rounding are not modelled.
  A range check against NaN would raise ValueError in the source.
- Exception messages are not modelled. Each error carries the name of the
  argument it concerns. The two different ValueError messages of the size
  and position checks are therefore not told apart.
- `Python.FinalClass` and `Python.IntInstances` hold only because the class
  hierarchy is closed. Python lets user code subclass `str`, `tuple`,
  `float` and `int`. A namedtuple `position` or `size`, or an `IntEnum`
  dimension, passes the `isinstance` checks of pyfx/effects/text.py:12,45
  and pyfx/containers/canvas.py:13,29. Values of such subclasses are outside
  `PyValue`, so the model says nothing about them.
- `Python.Truthy` follows Python for the values modelled. A user object
  defining `__bool__` or `__len__` is not modelled. Only a user object
  could be a highlight colour with its own truthiness, and the type check
  rejects user objects.
- The `pyfx.exceptions` module is not part of this model. DuplicateChildError
  is an error variant.
- `pyfx/__init__.py` and `pyfx/argval/__init__.py` contain only re-exports.
- Python's `==` and `hash` for group membership are taken to be identity,
  as they are for FXNode objects without overrides.
- Concurrency is not present in the source.
