# Ripple effect with automatic dark/light mode

A Dafny model of the `Ripple` class of the ripple-effects-auto-darklight package. The class draws a
circular "ripple" inside a host element when the host is activated. On every activation it:

- prepares the host (positioning context, overflow clipping, paint containment);
- picks one corner of the host box and measures the click's distance to it, storing both
  in its fields `x`, `y` and `z`;
- decides whether the ripple is painted for a dark or a light context;
- appends a `span` styled as a disc of that radius centred on the click;
- starts a grow-and-fade animation, whose completion removes the disc.

The model follows `index.js`. `index.d.ts` also declares two things that `index.js` never reads:
- a static `CONFIG` (`COLOR`, `ALPHA`, `VELOCITY`, `MIN_GROW`, `MAX_GROW`, `FADE_OUT`, `BLEED_PX`);
- an options object `{mode, alpha, color}`.

Despite its name, `findFurthestPoint` picks a corner by a quarter-extent threshold. That corner is
not always the farthest one. The model proves exactly when it is
(`Geometry.CornerIsFarthestOutsideBand`), and that the fully grown circle can miss a corner
(`Geometry.FinalCircleMayMissCorner`).

Modules:
- `Wrappers`: `Option`.
- `Dom`: the visual layer, meaning an element's inline style, classes, children, parent and started
  animation (`Element`), plus removal from the parent.
- `Theme`: `IsDarkContext` and `ResolveColor`, over a record of what the page reports
  (`ThemeEnv`: root has class `dark`, nearest `data-theme` value, system colour-scheme preference).
- `Geometry`: the per-axis corner choice and the squared distance. `Math.hypot` is characterised
  by its square (`IsHypot`).
- `Paint`: the host preparation, the circle's style, the animation's duration and keyframes.
- `RippleEffect`: the `Ripple` class, with fields `x`, `y`, `z` and methods `FindFurthestPoint`,
  `ApplyStyles`, `ApplyAnimation` and `Create`. It also holds the completion handler and a client
  proof showing that an activation plus its completion leaves the host's children as they were.

Browser reads become inputs, not calls:
- `classList.contains`, `closest`/`getAttribute` and `matchMedia` are fields of `ThemeEnv`, plus a
  `reduceMotion` argument;
- `getComputedStyle(host).position`, `getBoundingClientRect` and `offsetWidth`/`offsetHeight` are
  fields of `HostLayout`;
- the event is `Activation`: its current target and its client point.

## Model

| member | source | states |
|---|---|---|
| `Theme.IsDarkContext` | index.js:10-20 | True whenever the root has class `dark`. Otherwise true when the nearest `data-theme` is exactly `"dark"`. Otherwise it equals the system preference, and is false when `matchMedia` is unavailable. Overall: dark iff one of the three holds. |
| `Theme.LightThemeFallsThrough` | index.js:14-19 | Without the root class, a nearest `data-theme="light"` does not force light: the result is exactly the system preference. |
| `Theme.ResolveColor` | index.js:22-27 | A missing, empty or `"auto"` argument becomes `"dark"` exactly when `IsDarkContext` holds, and `"light"` otherwise. Every other argument, including an options object, is returned unchanged. |
| `Theme.ResolveColorIdempotent` | index.js:22-27 | Resolving an already resolved mode, in any context, returns it unchanged. |
| `Theme.ExplicitColorIgnoresTheme` | index.js:22-27 | For a non-automatic argument, the result does not depend on the theme context. |
| `Geometry.Corner` | index.js:31-32 | The chosen coordinate is 0 when the local click lies beyond a quarter of the extent, and the extent otherwise. So it is always 0 or the extent. |
| `Geometry.ChosenCorner` | index.js:31-32 | The chosen point has x in {0, width} and y in {0, height}. |
| `Geometry.CornerIsFarthestOutsideBand` | index.js:31-32 | For a positive extent, the chosen coordinate equals the farther end of the axis iff the click is not strictly between a quarter and a half of the extent. |
| `Geometry.RadiusBounds` | index.js:31-37 | For a click inside the box, the squared radius is at least a sixteenth of the squared diagonal and at most the squared diagonal. |
| `Geometry.FinalCircleMayMissCorner` | index.js:31-37 | Even at the animation's final scale `EndScale` (1.5, shared with `Paint.RippleAnimation`), the circle can leave a box corner uncovered. Witness: a click at (26, 26) in a 100×100 box. |
| `Geometry.CentreClick` | index.js:31-37 | A click at the centre of a 200×100 box measures to corner (0, 0) with squared radius 100² + 50². |
| `Dom.Without` | index.js:74 | Removing an element keeps every other child, with its multiplicity (`multiset(r) == multiset(s)[e := 0]`). Nothing of `e` is left, and nothing changes when `e` is absent. |
| `Dom.WithoutConcat` | index.js:74 | Removal distributes over concatenation, so the kept children stay in their original order. |
| `Dom.WithoutAppended` | index.js:74 | Removing a child that was appended last, and that appears nowhere else, restores the previous children. |
| `Dom.Element.constructor` | index.js:101 | A created element has the given local name and no classes, style, children, parent or animation. |
| `Dom.Element.Remove` | index.js:74 | The element leaves its parent's children and has no parent afterwards. Its own style, classes and animation are unchanged, and so are its children unless it was its own parent. The parent keeps its style, classes, animation and own parent. |
| `Paint.PreparedHostStyle` | index.js:84-89 | Position becomes `relative` only when the computed position is `static`, and is left as it was otherwise. Overflow becomes `hidden`, contain `paint` and will-change `transform`. Nothing else changes. |
| `Paint.CircleStyle` | index.js:41-59 | `left + radius == clientX − rect.left` and `top + radius == clientY − rect.top`. Width and height are both `2·radius`. Background is `rgba(255,255,255,0.35)` iff the mode is exactly `"dark"`, and `rgba(0,0,0,0.20)` otherwise. Blend mode becomes `multiply` for every non-dark mode and is untouched for `"dark"`. The circle starts at scale 0.001 and opacity 1. The other fields are kept. |
| `Paint.Duration` | index.js:62-63 | The duration is 0 iff reduced motion is preferred, and 500 otherwise (also when it cannot be queried). |
| `Paint.RippleAnimation` | index.js:66-72 | Exactly two keyframes: (scale 0.001, opacity 1), then (scale `EndScale` = 1.5, opacity 0). Linear easing, fill `forwards`, and the `Duration` above. |
| `Paint.AnimationStartsFromStyle` | index.js:54-68 | The circle's initial scale and opacity equal the animation's first keyframe. |
| `Paint.AutoPaintFollowsTheme` | index.js:43-58 | For an automatic request, the light-on-dark background is painted iff the context is dark. A light context gets the `multiply` blend. |
| `Paint.PassThroughPaintsLight` | index.js:43-58 | Any non-automatic argument other than `"dark"` is painted with the dark-on-light background and `multiply`, whatever the theme. This includes an options object and `"Dark"`. |
| `RippleEffect.Ripple.constructor` | index.js:3-7 | `x`, `y` and `z` start at 0. |
| `RippleEffect.Ripple.FindFurthestPoint` | index.js:30-38 | Stores the `Corner` of each local click coordinate in `x` and `y`. Stores `z >= 0` with `z² = (x − localX)² + (y − localY)²`. Returns `z`. Only the Ripple's fields change. |
| `RippleEffect.Ripple.ApplyStyles` | index.js:41-59 | Adds class `ripple` and sets the style to `CircleStyle` of the old style. Children, parent and animation are unchanged. |
| `RippleEffect.Ripple.ApplyAnimation` | index.js:61-76 | Records `RippleAnimation(reduceMotion)` on the element and changes nothing else about it. |
| `RippleEffect.Ripple.MakeCircle` | index.js:101-106 | Returns a fresh, parentless `span` with class `ripple`, the `CircleStyle` for the mode, and `RippleAnimation(reduceMotion)`. |
| `RippleEffect.Ripple.OnAnimationFinished` | index.js:74 | When the animation finishes, the element leaves its parent's children and has no parent. Everything else about the element and its parent is unchanged, as in `Dom.Element.Remove`. |
| `RippleEffect.Ripple.Create` | index.js:79-109 | Nothing changes without a current target. Otherwise the host style is `PreparedHostStyle` of the old one, and exactly one fresh `span` is appended. That span has class `ripple`, the `CircleStyle` for `ResolveColor` and radius `z`, and `RippleAnimation`. `x`, `y` and `z` are as in `FindFurthestPoint`, measured with the offset size and the rectangle's left/top. |
| `RippleEffect.ActivationLeavesNoCircle` | index.js:101-108 | An activation and then its animation's completion leave the host's children exactly as before. |

## Left out

- Browser reads (`classList`, `closest`, `getAttribute`, `matchMedia`, `getComputedStyle`, `getBoundingClientRect`, `offsetWidth`/`offsetHeight`) are inputs. How the page computes them is not modelled.
- `Math.hypot` is a parameter `hypot` restricted by `IsHypot`. Dafny's reals come with no square-root function, so the model cannot compute it.
- Floating-point evaluation is not modelled: coordinates and distances are exact reals. The `"px"` string formatting of lengths is also left out.
- Cosmetic style values with no decision behind them are stored as constants: `borderRadius`, `pointerEvents`, `willChange`, and the `translateZ(0)` part of the transform, which is kept only as its `scale`.
- `requestAnimationFrame` and the promise chain of `anim.finished.finally` are asynchronous browser machinery. `ApplyAnimation` records the animation that will be started. `OnAnimationFinished` is the completion callback, which a caller invokes.
- RippleEffect.Ripple.ApplyAnimation: the model records the animation before the circle is appended, whereas the browser runs `animate` on a later frame.
- Keyboard and touch events carry no `clientX`/`clientY`, so their arithmetic yields NaN in `index.js`. `Activation` always carries a client point.
- JavaScript falsy values other than `undefined`, `null` and `""` (`0`, `false`, `NaN`) are not modelled as the `color` argument.
- `index.d.ts` declares a static `CONFIG` and an options object `{mode, alpha, color}` that `index.js` never reads. The options object is the `Options` case of `ColorArg` and passes through unchanged.
- DOM `appendChild` moving a node that already has a parent is not modelled. `Create` only appends the span it has just created.
