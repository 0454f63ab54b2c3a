/**
 * The dropdown widget as its owner sees it: the owner's `visible` flag, which
 * a click on the link flips and the widget's `clickout` event clears; the
 * panel hidden with `display: none` while closed; and the `animation`
 * property with its default.
 */
module Dropdown {
  import opened Wrappers
  import opened Alignment
  import opened Placement

  /** The transition class used when no `animation` property is given. */
  const DefaultAnimation: string := "ani-slide"

  /** The `animation` property after defaulting. */
  function AnimationOrDefault(supplied: Option<string>): (r: string)
    ensures supplied.None? ==> r == DefaultAnimation
    ensures supplied.Some? ==> r == supplied.value
  {
    supplied.GetOr(DefaultAnimation)
  }

  /** The panel's `display` value: "none" hides it, "" leaves the element's own display. */
  function Display(visible: bool): (d: string)
    ensures d == "none" <==> !visible
    ensures visible ==> d == ""
  {
    if visible then "" else "none"
  }

  class Widget {
    /** The owner's open/closed flag, bound to the widget's `visible` property. */
    var visible: bool
    const position: Position
    const animation: string

    /** A widget whose `position` property has already been resolved. */
    constructor (visible: bool, position: Position, animation: Option<string>)
      ensures this.visible == visible
      ensures this.position == position
      ensures this.animation == AnimationOrDefault(animation)
    {
      this.visible := visible;
      this.position := position;
      this.animation := AnimationOrDefault(animation);
    }

    /** The panel's `display` style in the current state. */
    function DisplayStyle(): (d: string)
      reads this
      ensures d == "none" <==> !visible
      ensures d == Display(visible)
    {
      Display(visible)
    }

    /** The panel's computed style for the measured sizes of link and panel. */
    function PanelStyle(anchor: Size, panel: Size): (r: Style)
      ensures r.position == "absolute"
      ensures r.transformOrigin == TransformOrigin(position)
      ensures r.left + HorizontalFraction(position.panelH) * panel.width == HorizontalFraction(position.anchorH) * anchor.width
      ensures r.top + VerticalFraction(position.panelV) * panel.height == VerticalFraction(position.anchorV) * anchor.height
    {
      DdStyle(position, anchor, panel)
    }

    /** A click on the link: the owner flips its flag. */
    method ToggleLink()
      modifies this
      ensures visible == !old(visible)
    {
      visible := !visible;
    }

    /**
     * A click anywhere in the document, `insideWidget` telling whether its
     * target lies inside the widget. While open, a click outside fires
     * `clickout`, and the owner's handler sets its flag to false; otherwise
     * nothing happens.
     */
    method DocumentClick(insideWidget: bool) returns (clickout: bool)
      modifies this
      ensures clickout <==> old(visible) && !insideWidget
      ensures visible == (old(visible) && !clickout)
    {
      clickout := visible && !insideWidget;
      if clickout {
        visible := false;
      }
    }
  }

  /**
   * Creates a widget from its properties as the owner binds them: an absent
   * `position` takes the default, a malformed one is rejected.
   */
  method Mount(visible: bool, position: Option<seq<string>>, animation: Option<string>)
    returns (r: Result<Widget, PositionError>)
    ensures r.Ok? <==> ResolvePosition(position).Ok?
    ensures r.Err? ==> r == Err(ResolvePosition(position).error)
    ensures r.Ok? ==> fresh(r.value) && r.value.visible == visible
                      && r.value.position == ResolvePosition(position).value
                      && r.value.animation == AnimationOrDefault(animation)
  {
    match ResolvePosition(position)
    case Err(e) =>
      r := Err(e);
    case Ok(pos) =>
      var w := new Widget(visible, pos, animation);
      r := Ok(w);
  }

  /** A closed widget hides its panel; an open one does not. */
  method VisibleScenario() returns (closedDisplay: string, openDisplay: string)
    ensures closedDisplay == "none" && openDisplay == ""
  {
    var closed := Mount(false, None, None);
    closedDisplay := closed.value.DisplayStyle();
    var open := Mount(true, None, None);
    openDisplay := open.value.DisplayStyle();
  }

  /** An open widget, clicked outside, closes and hides its panel. */
  method ClickOutScenario() returns (clickout: bool, visibleAfter: bool, display: string)
    ensures clickout && !visibleAfter && display == "none"
  {
    var m := Mount(true, None, None);
    var w := m.value;
    clickout := w.DocumentClick(false);
    visibleAfter := w.visible;
    display := w.DisplayStyle();
  }

  /** Opening with the link, then clicking inside, keeps the panel open; a second link click closes it. */
  method LinkScenario() returns (openAfterInsideClick: bool, clickout: bool, openAfterSecondToggle: bool)
    ensures openAfterInsideClick && !clickout && !openAfterSecondToggle
  {
    var m := Mount(false, None, None);
    var w := m.value;
    w.ToggleLink();
    clickout := w.DocumentClick(true);
    openAfterInsideClick := w.visible;
    w.ToggleLink();
    openAfterSecondToggle := w.visible;
  }

  /** A widget created without `position` and `animation` uses [right, top, left, top] and "ani-slide". */
  method DefaultsScenario() returns (left: real, top: real, animation: string)
    ensures left == 100.0 && top == 0.0 && animation == "ani-slide"
  {
    var m := Mount(true, None, None);
    var w := m.value;
    var style := w.PanelStyle(Box100, Box100);
    left, top, animation := style.left, style.top, w.animation;
  }

  /** A supplied `animation` is kept as given. */
  method CustomAnimationScenario() returns (animation: string)
    ensures animation == "ani-custom"
  {
    var m := Mount(true, None, Some("ani-custom"));
    animation := m.value.animation;
  }
}
