/**
 * The Ripple object: it remembers the corner and radius of the last
 * activation and, on each activation, prepares the host, appends one
 * styled circle and starts its animation.
 */
module RippleEffect {
  import opened Wrappers
  import opened Dom
  import opened Theme
  import opened Geometry
  import opened Paint

  /**
   * An activation event: the element the handler is attached to (null when
   * absent) and the client coordinates of the pointer.
   */
  datatype Activation = Activation(currentTarget: Element?, clientX: real, clientY: real)

  /**
   * What the browser reports about the host when `create` runs: its computed
   * `position`, its bounding client rectangle and its offset size.
   */
  datatype HostLayout = HostLayout(computedPosition: string, rect: Rect, offsetWidth: real, offsetHeight: real)

  class Ripple {
    /** The corner chosen by the last activation, relative to the host box. */
    var x: real
    var y: real
    /** The radius measured by the last activation. */
    var z: real

    constructor ()
      ensures x == 0.0 && y == 0.0 && z == 0.0
    {
      x, y, z := 0.0, 0.0, 0.0;
    }

    /**
     * Chooses a corner of the host box for a click at (clickPointX,
     * clickPointY), stores it in (x, y), and stores and returns in z the
     * distance from the click to it. `hypot` is the platform's `Math.hypot`.
     */
    method FindFurthestPoint(clickPointX: real, elementWidth: real, offsetX: real,
                             clickPointY: real, elementHeight: real, offsetY: real,
                             hypot: (real, real) -> real)
      returns (radius: real)
      requires IsHypot(hypot)
      modifies this
      ensures x == Corner(clickPointX - offsetX, elementWidth)
      ensures y == Corner(clickPointY - offsetY, elementHeight)
      ensures radius == z && z >= 0.0
      ensures z * z == SquaredDistance(Point(x, y), Point(clickPointX - offsetX, clickPointY - offsetY))
    {
      x := if clickPointX - offsetX > elementWidth / 4.0 then 0.0 else elementWidth;
      y := if clickPointY - offsetY > elementHeight / 4.0 then 0.0 else elementHeight;
      z := hypot(x - (clickPointX - offsetX), y - (clickPointY - offsetY));
      radius := z;
    }

    /** Styles `element` as the ripple circle for `mode`, centred on the event's point. */
    method ApplyStyles(element: Element, mode: ColorArg, rect: Rect, radius: real, event: Activation)
      modifies element
      ensures element.classes == old(element.classes) + {"ripple"}
      ensures element.style == CircleStyle(old(element.style), mode, rect, radius, event.clientX, event.clientY)
      ensures element.children == old(element.children) && element.parent == old(element.parent)
      ensures element.animation == old(element.animation)
    {
      element.classes := element.classes + {"ripple"};
      var dark := mode == Text("dark");
      var style := element.style;
      style := style.(backgroundColor := if dark then DarkModeBackground else LightModeBackground);
      style := style.(borderRadius := "100%", pointerEvents := "none", position := "absolute");
      style := style.(left := Some(event.clientX - rect.left - radius));
      style := style.(top := Some(event.clientY - rect.top - radius));
      style := style.(width := Some(radius * 2.0), height := Some(radius * 2.0));
      style := style.(willChange := "transform, opacity", scale := Some(StartScale), opacity := Some(1.0));
      if !dark {
        style := style.(mixBlendMode := "multiply");
      }
      assert style == CircleStyle(old(element.style), mode, rect, radius, event.clientX, event.clientY);
      element.style := style;
    }

    /**
     * Starts the ripple animation on `element`; `reduceMotion` is whether the
     * "prefers-reduced-motion: reduce" query matches (None when it cannot be
     * asked). The element is removed when the animation finishes: see
     * OnAnimationFinished.
     */
    method ApplyAnimation(element: Element, reduceMotion: Option<bool>)
      modifies element
      ensures element.animation == Some(RippleAnimation(reduceMotion))
      ensures element.style == old(element.style) && element.classes == old(element.classes)
      ensures element.children == old(element.children) && element.parent == old(element.parent)
    {
      element.animation := Some(RippleAnimation(reduceMotion));
    }

    /** The completion handler of the ripple animation: the circle removes itself. */
    method OnAnimationFinished(element: Element)
      requires element.animation.Some?
      modifies element, element.parent
      ensures element.parent == null
      ensures old(element.parent) != null ==>
        old(element.parent).children == Without(old(element.parent.children), element)
      ensures old(element.parent) != element ==> element.children == old(element.children)
      ensures element.classes == old(element.classes) && element.style == old(element.style)
      ensures element.animation == old(element.animation)
      ensures old(element.parent) != null ==>
        old(element.parent).style == old(element.parent.style)
        && old(element.parent).classes == old(element.parent.classes)
      ensures old(element.parent) != null && old(element.parent) != element ==>
        old(element.parent).parent == old(element.parent.parent)
        && old(element.parent).animation == old(element.parent.animation)
    {
      element.Remove();
    }

    /** The circle of one activation: a new "span", styled for `mode` and animated. */
    method MakeCircle(mode: ColorArg, rect: Rect, radius: real, event: Activation, reduceMotion: Option<bool>)
      returns (circle: Element)
      ensures fresh(circle) && circle.localName == "span" && circle.parent == null
      ensures circle.classes == {"ripple"} && circle.children == []
      ensures circle.style == CircleStyle(EmptyStyle, mode, rect, radius, event.clientX, event.clientY)
      ensures circle.animation == Some(RippleAnimation(reduceMotion))
    {
      circle := new Element("span");
      ApplyStyles(circle, mode, rect, radius, event);
      ApplyAnimation(circle, reduceMotion);
    }

    /**
     * Handles one activation: nothing happens without a current target;
     * otherwise the host is prepared, the corner and radius are measured,
     * and one new "span" circle, styled for the resolved mode and animated,
     * is appended to the host.
     */
    method Create(event: Activation, color: ColorArg, layout: HostLayout, env: ThemeEnv,
                  reduceMotion: Option<bool>, hypot: (real, real) -> real)
      requires IsHypot(hypot)
      modifies this, event.currentTarget
      ensures event.currentTarget == null ==> unchanged(this)
      ensures event.currentTarget != null ==>
        var host := event.currentTarget;
        && host.style == PreparedHostStyle(old(host.style), layout.computedPosition)
        && host.classes == old(host.classes) && host.parent == old(host.parent)
        && host.animation == old(host.animation)
        && |host.children| == |old(host.children)| + 1
        && host.children[..|old(host.children)|] == old(host.children)
        && var circle := host.children[|old(host.children)|];
        && fresh(circle) && circle.localName == "span" && circle.parent == host
        && circle.classes == {"ripple"} && circle.children == []
        && circle.style == CircleStyle(EmptyStyle, ResolveColor(color, env), layout.rect, z,
                                       event.clientX, event.clientY)
        && circle.animation == Some(RippleAnimation(reduceMotion))
        && x == Corner(event.clientX - layout.rect.left, layout.offsetWidth)
        && y == Corner(event.clientY - layout.rect.top, layout.offsetHeight)
        && z >= 0.0
        && z * z == SquaredDistance(Point(x, y), Point(event.clientX - layout.rect.left,
                                                       event.clientY - layout.rect.top))
    {
      var host := event.currentTarget;
      if host == null {
        return;
      }
      var hostStyle := host.style;
      if layout.computedPosition == "static" {
        hostStyle := hostStyle.(position := "relative");
      }
      host.style := hostStyle.(overflow := "hidden", contain := "paint", willChange := "transform");
      assert host.style == PreparedHostStyle(old(host.style), layout.computedPosition);

      var rect := layout.rect;
      var radius := FindFurthestPoint(event.clientX, layout.offsetWidth, rect.left,
                                      event.clientY, layout.offsetHeight, rect.top, hypot);

      var mode := ResolveColor(color, env);
      var circle := MakeCircle(mode, rect, radius, event, reduceMotion);
      host.children := host.children + [circle];
      circle.parent := host;
    }
  }

  /**
   * An activation followed by the completion of its animation leaves the
   * host's children as they were, and the Ripple remembers the measured
   * corner and radius.
   */
  method ActivationLeavesNoCircle(ripple: Ripple, event: Activation, color: ColorArg, layout: HostLayout,
                                  env: ThemeEnv, reduceMotion: Option<bool>, hypot: (real, real) -> real)
    requires IsHypot(hypot)
    requires event.currentTarget != null
    modifies ripple, event.currentTarget
    ensures event.currentTarget.children == old(event.currentTarget.children)
    ensures ripple.x == Corner(event.clientX - layout.rect.left, layout.offsetWidth)
    ensures ripple.y == Corner(event.clientY - layout.rect.top, layout.offsetHeight)
  {
    var host := event.currentTarget;
    ghost var before := host.children;
    ripple.Create(event, color, layout, env, reduceMotion, hypot);
    var circle := host.children[|host.children| - 1];
    assert host.children == before + [circle];
    assert circle !in before;
    ripple.OnAnimationFinished(circle);
    WithoutAppended(before, circle);
  }
}
