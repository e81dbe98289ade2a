/** The alignment options of an effect node (pyfx/enums.py). */
module Enums {

  /** The nine anchor positions, in declaration order. */
  datatype Alignment =
    | TopLeft | TopCenter | TopRight
    | CenterLeft | Center | CenterRight
    | BottomLeft | BottomCenter | BottomRight

  /** The rows and columns of the 3 x 3 anchor grid. */
  datatype Vertical = Top | Middle | Bottom
  datatype Horizontal = Left | Centre | Right

  /** Every member, in the order the enumeration declares them. */
  const Members: seq<Alignment> :=
    [TopLeft, TopCenter, TopRight, CenterLeft, Center, CenterRight, BottomLeft, BottomCenter, BottomRight]

  /** The value `auto()` gives a member: 1 for the first declared, counting up. */
  function Value(a: Alignment): (v: int)
    ensures 1 <= v <= 9
  {
    match a
    case TopLeft => 1
    case TopCenter => 2
    case TopRight => 3
    case CenterLeft => 4
    case Center => 5
    case CenterRight => 6
    case BottomLeft => 7
    case BottomCenter => 8
    case BottomRight => 9
  }

  function VerticalOf(a: Alignment): Vertical {
    match a
    case TopLeft | TopCenter | TopRight => Top
    case CenterLeft | Center | CenterRight => Middle
    case BottomLeft | BottomCenter | BottomRight => Bottom
  }

  function HorizontalOf(a: Alignment): Horizontal {
    match a
    case TopLeft | CenterLeft | BottomLeft => Left
    case TopCenter | Center | BottomCenter => Centre
    case TopRight | CenterRight | BottomRight => Right
  }

  /** The member at row `v` and column `h` of the grid. */
  function At(v: Vertical, h: Horizontal): (a: Alignment)
    ensures VerticalOf(a) == v && HorizontalOf(a) == h
  {
    match (v, h)
    case (Top, Left) => TopLeft
    case (Top, Centre) => TopCenter
    case (Top, Right) => TopRight
    case (Middle, Left) => CenterLeft
    case (Middle, Centre) => Center
    case (Middle, Right) => CenterRight
    case (Bottom, Left) => BottomLeft
    case (Bottom, Centre) => BottomCenter
    case (Bottom, Right) => BottomRight
  }

  /** The enumeration has exactly nine members and lists each once. */
  lemma MembersAreAllDistinct()
    ensures |Members| == 9
    ensures forall a: Alignment :: a in Members
    ensures forall i, j :: 0 <= i < j < |Members| ==> Members[i] != Members[j]
  {
    forall a: Alignment ensures a in Members {
      assert Members[Value(a) - 1] == a;
    }
  }

  /** `auto()` numbers the members 1..9 in declaration order. */
  lemma ValuesFollowDeclarationOrder()
    ensures forall i :: 0 <= i < |Members| ==> Value(Members[i]) == i + 1
  {
  }

  /** Distinct members have distinct values. */
  lemma ValueInjective(a: Alignment, b: Alignment)
    ensures Value(a) == Value(b) <==> a == b
  {
  }

  /** Each member is one cell of the grid and each cell is one member; the centre cell is plain `Center`. */
  lemma GridIsBijective(a: Alignment, v: Vertical, h: Horizontal)
    ensures At(VerticalOf(a), HorizontalOf(a)) == a
    ensures At(v, h) == a <==> VerticalOf(a) == v && HorizontalOf(a) == h
    ensures At(Middle, Centre) == Center
  {
  }
}
