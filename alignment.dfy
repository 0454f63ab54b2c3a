/**
 * The alignment values of the dropdown's `position` property: which point of
 * the anchor (the toggle link) and which point of the panel are made to meet.
 * Each horizontal value is one of left, center, right and each vertical value
 * one of top, center, bottom; the property is the four-element array
 * [anchor horizontal, anchor vertical, panel horizontal, panel vertical].
 */
module Alignment {
  import opened Wrappers

  datatype Horizontal = Left | Center | Right
  datatype Vertical = Top | Center | Bottom

  /** The spellings the property accepts, in the order the tests enumerate them. */
  const HorizontalNames: seq<string> := ["left", "center", "right"]
  const VerticalNames: seq<string> := ["top", "center", "bottom"]

  function HorizontalName(h: Horizontal): string
  {
    match h
    case Left => "left"
    case Center => "center"
    case Right => "right"
  }

  function VerticalName(v: Vertical): string
  {
    match v
    case Top => "top"
    case Center => "center"
    case Bottom => "bottom"
  }

  /** Reads one horizontal alignment value; anything but the three spellings is rejected. */
  function ParseHorizontal(s: string): (r: Option<Horizontal>)
    ensures r.Some? <==> s in HorizontalNames
    ensures r.Some? ==> HorizontalName(r.value) == s
  {
    if s == "left" then Some(Horizontal.Left)
    else if s == "center" then Some(Horizontal.Center)
    else if s == "right" then Some(Horizontal.Right)
    else None
  }

  /** Reads one vertical alignment value; anything but the three spellings is rejected. */
  function ParseVertical(s: string): (r: Option<Vertical>)
    ensures r.Some? <==> s in VerticalNames
    ensures r.Some? ==> VerticalName(r.value) == s
  {
    if s == "top" then Some(Vertical.Top)
    else if s == "center" then Some(Vertical.Center)
    else if s == "bottom" then Some(Vertical.Bottom)
    else None
  }

  /** Every alignment value is spelled with one of the accepted names and reads back as itself. */
  lemma NameRoundTrip(h: Horizontal, v: Vertical)
    ensures HorizontalName(h) in HorizontalNames && ParseHorizontal(HorizontalName(h)) == Some(h)
    ensures VerticalName(v) in VerticalNames && ParseVertical(VerticalName(v)) == Some(v)
  {
  }

  /** The four alignment values of the `position` property. */
  datatype Position = Position(anchorH: Horizontal, anchorV: Vertical, panelH: Horizontal, panelV: Vertical)

  /** The position used when the property is not given: the panel's top-left corner on the anchor's top-right corner. */
  const DefaultPosition: Position := Position(Horizontal.Right, Vertical.Top, Horizontal.Left, Vertical.Top)

  datatype PositionError =
    | WrongLength(length: nat)              // the array does not hold four values
    | InvalidAlignment(index: nat, value: string)  // the value at `index` is not an alignment of its axis

  /** The accepted spellings at place `k` of the property: horizontal at even places, vertical at odd ones. */
  function AxisNames(k: nat): seq<string>
  {
    if k % 2 == 0 then HorizontalNames else VerticalNames
  }

  /** The property value that denotes `pos`. */
  function PositionNames(pos: Position): seq<string>
  {
    [HorizontalName(pos.anchorH), VerticalName(pos.anchorV), HorizontalName(pos.panelH), VerticalName(pos.panelV)]
  }

  /** True when every value of `p` is an alignment of the axis its place in the array stands for. */
  predicate WellFormed(p: seq<string>)
  {
    |p| == 4 && p[0] in HorizontalNames && p[1] in VerticalNames && p[2] in HorizontalNames && p[3] in VerticalNames
  }

  /** Validates the `position` property, failing on the first value that is not an alignment. */
  function ParsePosition(p: seq<string>): (r: Result<Position, PositionError>)
    ensures r.Ok? <==> WellFormed(p)
    ensures r.Ok? ==> PositionNames(r.value) == p
    ensures |p| != 4 ==> r == Err(WrongLength(|p|))
    ensures r.Err? && r.error.InvalidAlignment? ==>
              r.error.index < |p| == 4 && r.error.value == p[r.error.index]
    // the value blamed is the first one that is not an alignment of its axis
    ensures r.Err? && r.error.InvalidAlignment? ==>
              r.error.index < |p| && p[r.error.index] !in AxisNames(r.error.index)
              && forall k :: 0 <= k < r.error.index ==> p[k] in AxisNames(k)
  {
    if |p| != 4 then Err(WrongLength(|p|))
    else
      match (ParseHorizontal(p[0]), ParseVertical(p[1]), ParseHorizontal(p[2]), ParseVertical(p[3]))
      case (None, _, _, _) => Err(InvalidAlignment(0, p[0]))
      case (_, None, _, _) => Err(InvalidAlignment(1, p[1]))
      case (_, _, None, _) => Err(InvalidAlignment(2, p[2]))
      case (_, _, _, None) => Err(InvalidAlignment(3, p[3]))
      case (Some(ah), Some(av), Some(ph), Some(pv)) => Ok(Position(ah, av, ph, pv))
  }

  /** Writing a position as the property and reading it back gives the same position. */
  lemma PositionRoundTrip(pos: Position)
    ensures ParsePosition(PositionNames(pos)) == Ok(pos)
  {
  }

  /** The position the widget uses: the default when the property is absent, else the validated value. */
  function ResolvePosition(prop: Option<seq<string>>): (r: Result<Position, PositionError>)
    ensures prop.None? ==> r == Ok(DefaultPosition)
    ensures prop.Some? ==> (r.Ok? <==> WellFormed(prop.value))
    ensures prop.Some? && r.Ok? ==> PositionNames(r.value) == prop.value
  {
    match prop
    case None => Ok(DefaultPosition)
    case Some(p) => ParsePosition(p)
  }

  /** The default position written out is the property [right, top, left, top]. */
  lemma DefaultPositionNames()
    ensures ResolvePosition(None) == ParsePosition(["right", "top", "left", "top"])
  {
  }

  const Horizontals: seq<Horizontal> := [Horizontal.Left, Horizontal.Center, Horizontal.Right]
  const Verticals: seq<Vertical> := [Vertical.Top, Vertical.Center, Vertical.Bottom]

  function HorizontalIndex(h: Horizontal): (i: nat)
    ensures i < 3 && Horizontals[i] == h
  {
    match h
    case Left => 0
    case Center => 1
    case Right => 2
  }

  function VerticalIndex(v: Vertical): (i: nat)
    ensures i < 3 && Verticals[i] == v
  {
    match v
    case Top => 0
    case Center => 1
    case Bottom => 2
  }

  /**
   * The 81 positions in the order four nested loops visit them, the anchor's
   * horizontal value outermost and the panel's vertical value innermost.
   */
  function AllPositions(): (r: seq<Position>)
    ensures |r| == 81
  {
    seq(81, i requires 0 <= i < 81 =>
      Position(Horizontals[i / 27], Verticals[(i / 9) % 3], Horizontals[(i / 3) % 3], Verticals[i % 3]))
  }

  /** Where the nested loops visit `pos`. */
  function PositionIndex(pos: Position): (i: nat)
  {
    27 * HorizontalIndex(pos.anchorH) + 9 * VerticalIndex(pos.anchorV)
      + 3 * HorizontalIndex(pos.panelH) + VerticalIndex(pos.panelV)
  }

  /** The nested loops visit every position, at the index PositionIndex gives. */
  lemma AllPositionsComplete(pos: Position)
    ensures PositionIndex(pos) < 81 && AllPositions()[PositionIndex(pos)] == pos
  {
  }

  /** The nested loops visit no position twice. */
  lemma AllPositionsDistinct(i: nat, j: nat)
    requires i < 81 && j < 81 && AllPositions()[i] == AllPositions()[j]
    ensures i == j
  {
    AllPositionsAt(i);
    AllPositionsAt(j);
  }

  /** The position visited at step `i` is the one whose index is `i`. */
  lemma AllPositionsAt(i: nat)
    requires i < 81
    ensures PositionIndex(AllPositions()[i]) == i
  {
  }
}
