/**
 * The styles the ripple writes: the host's preparation, the circle's
 * position, size and paint, and the animation it runs.
 */
module Paint {
  import opened Wrappers
  import opened Dom
  import opened Theme
  import opened Geometry

  const DarkModeBackground := "rgba(255,255,255,0.35)"
  const LightModeBackground := "rgba(0,0,0,0.20)"

  /** Scale and opacity the circle starts from, before it grows and fades. */
  const StartScale: real := 0.001

  /**
   * The host after `create` prepares it: positioned (made "relative" only
   * when its computed position is "static"), clipping its overflow, with
   * paint containment and a compositing hint; nothing else changes.
   */
  function PreparedHostStyle(base: Style, computedPosition: string): (s: Style)
    ensures computedPosition == "static" ==> s.position == "relative"
    ensures computedPosition != "static" ==> s.position == base.position
    ensures s.overflow == "hidden" && s.contain == "paint" && s.willChange == "transform"
    ensures s.(position := base.position, overflow := base.overflow,
               contain := base.contain, willChange := base.willChange) == base
  {
    var positioned := if computedPosition == "static" then base.(position := "relative") else base;
    positioned.(overflow := "hidden", contain := "paint", willChange := "transform")
  }

  /**
   * The circle's style after `applyStyles` on an element whose style was
   * `base`: a disc of diameter 2 * radius centred on the click point
   * relative to the host's rectangle, painted light for the "dark" mode and
   * dark with a "multiply" blend for every other mode, at its start scale
   * and fully opaque.
   */
  function CircleStyle(base: Style, mode: ColorArg, rect: Rect, radius: real, clientX: real, clientY: real): (s: Style)
    ensures s.left.Some? && s.left.value + radius == clientX - rect.left
    ensures s.top.Some? && s.top.value + radius == clientY - rect.top
    ensures s.width == s.height == Some(2.0 * radius)
    ensures s.backgroundColor == DarkModeBackground || s.backgroundColor == LightModeBackground
    ensures s.backgroundColor == DarkModeBackground <==> mode == Text("dark")
    ensures mode == Text("dark") ==> s.mixBlendMode == base.mixBlendMode
    ensures mode != Text("dark") ==> s.mixBlendMode == "multiply"
    ensures s.position == "absolute" && s.borderRadius == "100%" && s.pointerEvents == "none"
    ensures s.willChange == "transform, opacity"
    ensures s.scale == Some(StartScale) && s.opacity == Some(1.0)
    ensures s.(backgroundColor := base.backgroundColor, borderRadius := base.borderRadius,
               pointerEvents := base.pointerEvents, position := base.position,
               left := base.left, top := base.top, width := base.width, height := base.height,
               willChange := base.willChange, scale := base.scale, opacity := base.opacity,
               mixBlendMode := base.mixBlendMode) == base
  {
    var dark := mode == Text("dark");
    var painted := base.(
      backgroundColor := if dark then DarkModeBackground else LightModeBackground,
      borderRadius := "100%",
      pointerEvents := "none",
      position := "absolute",
      left := Some(clientX - rect.left - radius),
      top := Some(clientY - rect.top - radius),
      width := Some(radius * 2.0),
      height := Some(radius * 2.0),
      willChange := "transform, opacity",
      scale := Some(StartScale),
      opacity := Some(1.0));
    if dark then painted else painted.(mixBlendMode := "multiply")
  }

  /** The animation's duration in milliseconds: none at all when reduced motion is preferred. */
  function Duration(reduceMotion: Option<bool>): (ms: nat)
    ensures ms == 0 <==> reduceMotion == Some(true)
    ensures ms == 0 || ms == 500
  {
    if reduceMotion == Some(true) then 0 else 500
  }

  /**
   * The animation `applyAnimation` starts: linear growth from the start
   * scale to 1.5 while fading from opaque to invisible, kept at its end
   * state.
   */
  function RippleAnimation(reduceMotion: Option<bool>): (a: Animation)
    ensures a.duration == Duration(reduceMotion)
    ensures |a.keyframes| == 2
    ensures a.keyframes[0] == Keyframe(StartScale, 1.0) && a.keyframes[1] == Keyframe(EndScale, 0.0)
    ensures a.keyframes[0].scale < a.keyframes[1].scale
    ensures a.easing == "linear" && a.fill == "forwards"
  {
    Animation([Keyframe(StartScale, 1.0), Keyframe(EndScale, 0.0)], Duration(reduceMotion), "linear", "forwards")
  }

  /** The animation starts from exactly the scale and opacity the circle is styled with, so nothing jumps. */
  lemma AnimationStartsFromStyle(base: Style, mode: ColorArg, rect: Rect, radius: real,
                                 clientX: real, clientY: real, reduceMotion: Option<bool>)
    ensures var s := CircleStyle(base, mode, rect, radius, clientX, clientY);
            var first := RippleAnimation(reduceMotion).keyframes[0];
            s.scale == Some(first.scale) && s.opacity == Some(first.opacity)
  {
  }

  /**
   * What an automatic request paints: the light background, with no blend
   * mode set, exactly in a dark context.
   */
  lemma AutoPaintFollowsTheme(c: ColorArg, env: ThemeEnv, base: Style, rect: Rect, radius: real, clientX: real, clientY: real)
    requires IsAutoRequest(c)
    ensures var s := CircleStyle(base, ResolveColor(c, env), rect, radius, clientX, clientY);
            (s.backgroundColor == DarkModeBackground <==> IsDarkContext(env))
            && (s.mixBlendMode == "multiply" || s.mixBlendMode == base.mixBlendMode)
            && (!IsDarkContext(env) ==> s.mixBlendMode == "multiply")
  {
  }

  /** An options object, or any mode other than "dark", is painted as light mode whatever the theme. */
  lemma PassThroughPaintsLight(c: ColorArg, env: ThemeEnv, base: Style, rect: Rect, radius: real, clientX: real, clientY: real)
    requires !IsAutoRequest(c) && c != Text("dark")
    ensures var s := CircleStyle(base, ResolveColor(c, env), rect, radius, clientX, clientY);
            s.backgroundColor == LightModeBackground && s.mixBlendMode == "multiply"
  {
  }
}
