/**
 * The panel's computed style (`ddStyle`): an absolutely positioned box whose
 * offset from the anchor's top-left corner puts the panel's aligned point on
 * the anchor's aligned point, and whose transform origin names the panel's
 * aligned point. Offsets are numbers of pixels; `real` keeps halving exact.
 */
module Placement {
  import opened Wrappers
  import opened Alignment

  /** Measured width and height of a box, in pixels. */
  datatype Size = Size(width: real, height: real)

  /** The style properties the widget sets on its panel. */
  datatype Style = Style(position: string, left: real, top: real, transformOrigin: string)

  /** Offsets only, as the tests' reference calculation returns them. */
  datatype Offset = Offset(left: real, top: real)

  /** Where along a box's width the named horizontal point lies, as a fraction of the width. */
  function HorizontalFraction(h: Horizontal): (f: real)
    ensures 0.0 <= f <= 1.0
  {
    match h
    case Left => 0.0
    case Center => 0.5
    case Right => 1.0
  }

  /** Where along a box's height the named vertical point lies, as a fraction of the height. */
  function VerticalFraction(v: Vertical): (f: real)
    ensures 0.0 <= f <= 1.0
  {
    match v
    case Top => 0.0
    case Center => 0.5
    case Bottom => 1.0
  }

  /**
   * The panel's left offset: add none, half or all of the anchor's width, then
   * take away none, half or all of the panel's width.
   */
  function HorizontalOffset(anchorH: Horizontal, panelH: Horizontal, anchorWidth: real, panelWidth: real): (left: real)
    // the panel's aligned point lands on the anchor's aligned point
    ensures left + HorizontalFraction(panelH) * panelWidth == HorizontalFraction(anchorH) * anchorWidth
    ensures 0.0 <= anchorWidth && 0.0 <= panelWidth ==> -panelWidth <= left <= anchorWidth
    ensures anchorH == panelH && anchorWidth == panelWidth ==> left == 0.0
  {
    var fromAnchor := match anchorH
      case Left => 0.0
      case Center => anchorWidth / 2.0
      case Right => anchorWidth;
    fromAnchor - match panelH
      case Left => 0.0
      case Center => panelWidth / 2.0
      case Right => panelWidth
  }

  /**
   * The panel's top offset: add none, half or all of the anchor's height, then
   * take away none, half or all of the panel's height.
   */
  function VerticalOffset(anchorV: Vertical, panelV: Vertical, anchorHeight: real, panelHeight: real): (top: real)
    // the panel's aligned point lands on the anchor's aligned point
    ensures top + VerticalFraction(panelV) * panelHeight == VerticalFraction(anchorV) * anchorHeight
    ensures 0.0 <= anchorHeight && 0.0 <= panelHeight ==> -panelHeight <= top <= anchorHeight
    ensures anchorV == panelV && anchorHeight == panelHeight ==> top == 0.0
  {
    var fromAnchor := match anchorV
      case Top => 0.0
      case Center => anchorHeight / 2.0
      case Bottom => anchorHeight;
    fromAnchor - match panelV
      case Top => 0.0
      case Center => panelHeight / 2.0
      case Bottom => panelHeight
  }

  /** The CSS transform origin: the panel's two alignment values joined by a space. */
  function TransformOrigin(pos: Position): string
  {
    HorizontalName(pos.panelH) + " " + VerticalName(pos.panelV)
  }

  /** The panel's style for a position and the measured sizes of anchor and panel. */
  function DdStyle(pos: Position, anchor: Size, panel: Size): (r: Style)
    ensures r.position == "absolute"
    ensures r.transformOrigin == HorizontalName(pos.panelH) + " " + VerticalName(pos.panelV)
    ensures r.left + HorizontalFraction(pos.panelH) * panel.width == HorizontalFraction(pos.anchorH) * anchor.width
    ensures r.top + VerticalFraction(pos.panelV) * panel.height == VerticalFraction(pos.anchorV) * anchor.height
  {
    Style("absolute",
          HorizontalOffset(pos.anchorH, pos.panelH, anchor.width, panel.width),
          VerticalOffset(pos.anchorV, pos.panelV, anchor.height, panel.height),
          TransformOrigin(pos))
  }

  /** The box size both the link and the panel have in the tests. */
  const Box100: Size := Size(100.0, 100.0)

  /**
   * The tests' reference calculation, for a 100 by 100 link and a 100 by 100
   * panel: start from none, half or all of the link's size and add nothing,
   * minus half or minus all of the panel's size.
   */
  function CalculatePosition(p1: Horizontal, p2: Vertical, p3: Horizontal, p4: Vertical): (r: Offset)
    ensures r.left in {-100.0, -50.0, 0.0, 50.0, 100.0}
    ensures r.top in {-100.0, -50.0, 0.0, 50.0, 100.0}
  {
    var ddh, ddv := 100.0, 100.0;
    var lh, lv := 100.0, 100.0;
    var left := if p1 == Horizontal.Left then 0.0 else if p1 == Horizontal.Center then lh / 2.0 else lh;
    var top := if p2 == Vertical.Top then 0.0 else if p2 == Vertical.Center then lv / 2.0 else lv;
    var left := left + if p3 == Horizontal.Left then 0.0 else if p3 == Horizontal.Center then -(ddh / 2.0) else -ddh;
    var top := top + if p4 == Vertical.Top then 0.0 else if p4 == Vertical.Center then -(ddv / 2.0) else -ddv;
    Offset(left, top)
  }

  /**
   * For every one of the 81 combinations the loops of the tests visit, the
   * widget's style is absolute, has the reference offsets, and its transform
   * origin is the panel's alignment pair joined by a space.
   */
  lemma DdStyleMatchesReference(i: nat)
    requires i < 81
    ensures var pos := AllPositions()[i];
            var style := DdStyle(pos, Box100, Box100);
            var expected := CalculatePosition(pos.anchorH, pos.anchorV, pos.panelH, pos.panelV);
            && style.position == "absolute"
            && style.left == expected.left && style.top == expected.top
            && style.transformOrigin == PositionNames(pos)[2] + " " + PositionNames(pos)[3]
  {
  }

  /** The widget's offsets on 100 by 100 boxes equal the reference calculation's. */
  lemma OffsetsAgree(pos: Position)
    ensures var style := DdStyle(pos, Box100, Box100);
            var expected := CalculatePosition(pos.anchorH, pos.anchorV, pos.panelH, pos.panelV);
            style.left == expected.left && style.top == expected.top
  {
  }

  /** The left offset depends only on the horizontal inputs, the top offset only on the vertical ones. */
  lemma AxesIndependent(pos: Position, anchor: Size, panel: Size, pos': Position, anchor': Size, panel': Size)
    ensures (pos.anchorH == pos'.anchorH && pos.panelH == pos'.panelH && anchor.width == anchor'.width && panel.width == panel'.width)
              ==> DdStyle(pos, anchor, panel).left == DdStyle(pos', anchor', panel').left
    ensures (pos.anchorV == pos'.anchorV && pos.panelV == pos'.panelV && anchor.height == anchor'.height && panel.height == panel'.height)
              ==> DdStyle(pos, anchor, panel).top == DdStyle(pos', anchor', panel').top
  {
  }

  /** Offsets stay between minus the panel's size and the anchor's size. */
  lemma OffsetBounds(pos: Position, anchor: Size, panel: Size)
    requires 0.0 <= anchor.width && 0.0 <= anchor.height && 0.0 <= panel.width && 0.0 <= panel.height
    ensures -panel.width <= DdStyle(pos, anchor, panel).left <= anchor.width
    ensures -panel.height <= DdStyle(pos, anchor, panel).top <= anchor.height
  {
  }

  /** Equal boxes aligned on the same points do not move the panel off the anchor. */
  lemma SameAlignmentNoOffset(pos: Position, size: Size)
    ensures pos.anchorH == pos.panelH ==> DdStyle(pos, size, size).left == 0.0
    ensures pos.anchorV == pos.panelV ==> DdStyle(pos, size, size).top == 0.0
  {
  }

  /** On 100 by 100 boxes: [left, top, left, top] and [center, center, center, center] give (0, 0). */
  lemma CornerAndCenterExamples()
    ensures var s := DdStyle(Position(Horizontal.Left, Vertical.Top, Horizontal.Left, Vertical.Top), Box100, Box100);
            s.left == 0.0 && s.top == 0.0
    ensures var s := DdStyle(Position(Horizontal.Center, Vertical.Center, Horizontal.Center, Vertical.Center), Box100, Box100);
            s.left == 0.0 && s.top == 0.0
  {
  }

  /** The default position on 100 by 100 boxes puts the panel 100 pixels right of the anchor, at the same top. */
  lemma DefaultPositionStyle()
    ensures var s := DdStyle(DefaultPosition, Box100, Box100);
            s.left == 100.0 && s.top == 0.0 && s.transformOrigin == "left top"
    ensures CalculatePosition(Horizontal.Right, Vertical.Top, Horizontal.Left, Vertical.Top) == Offset(100.0, 0.0)
  {
  }

  /** Index of the first space in `s`, or |s| when there is none. */
  function IndexOfSpace(s: string): (i: nat)
    ensures i <= |s|
    ensures forall k :: 0 <= k < i ==> s[k] != ' '
    ensures i < |s| ==> s[i] == ' '
  {
    if s == [] || s[0] == ' ' then 0 else 1 + IndexOfSpace(s[1..])
  }

  /** Reads a transform origin of the form "<horizontal> <vertical>" back into its two alignment values. */
  function ParseOrigin(s: string): (r: Option<(Horizontal, Vertical)>)
  {
    var i := IndexOfSpace(s);
    if i == |s| then None
    else
      match (ParseHorizontal(s[..i]), ParseVertical(s[i + 1..]))
      case (Some(h), Some(v)) => Some((h, v))
      case _ => None
  }

  /** The transform origin reads back as the panel's alignment pair. */
  lemma OriginRoundTrip(pos: Position)
    ensures ParseOrigin(TransformOrigin(pos)) == Some((pos.panelH, pos.panelV))
  {
    var name := HorizontalName(pos.panelH);
    var s := TransformOrigin(pos);
    var i := IndexOfSpace(s);
    assert s[|name|] == ' ';
    assert i == |name|;
    assert s[..i] == name;
    assert s[i + 1..] == VerticalName(pos.panelV);
    NameRoundTrip(pos.panelH, pos.panelV);
  }

  /** Only the transform origin of the panel's alignment pair reads back as that pair. */
  lemma ParseOriginSound(s: string, h: Horizontal, v: Vertical)
    requires ParseOrigin(s) == Some((h, v))
    ensures s == HorizontalName(h) + " " + VerticalName(v)
  {
  }

  /** Two positions with the same transform origin have the same panel alignment. */
  lemma TransformOriginInjective(pos: Position, pos': Position)
    requires TransformOrigin(pos) == TransformOrigin(pos')
    ensures pos.panelH == pos'.panelH && pos.panelV == pos'.panelV
  {
    OriginRoundTrip(pos);
    OriginRoundTrip(pos');
  }
}
