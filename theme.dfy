/**
 * Theme detection and mode resolution: how the ripple decides between its
 * light-on-dark and dark-on-light paint.
 */
module Theme {
  import opened Wrappers

  /**
   * What the page says about an element's colour context, read by
   * `isDarkContext`:
   * - rootHasDark: the document's root element carries the class "dark";
   * - nearestTheme: the `data-theme` value of the element itself or of its
   *   closest ancestor that has the attribute (None when there is none);
   * - systemDark: whether the "prefers-color-scheme: dark" media query
   *   matches (None when `window.matchMedia` is unavailable).
   */
  datatype ThemeEnv = ThemeEnv(rootHasDark: bool, nearestTheme: Option<string>, systemDark: Option<bool>)

  /** JavaScript's `o ?? fallback` for a boolean that may be undefined. */
  function OrElse(o: Option<bool>, fallback: bool): bool {
    match o
    case Some(b) => b
    case None => fallback
  }

  /**
   * The three checks in priority order: the root's "dark" class, then a
   * nearest `data-theme` of exactly "dark", then the system preference,
   * which counts as light when it cannot be queried.
   */
  function IsDarkContext(env: ThemeEnv): (dark: bool)
    ensures env.rootHasDark ==> dark
    ensures !env.rootHasDark && env.nearestTheme == Some("dark") ==> dark
    ensures !env.rootHasDark && env.nearestTheme != Some("dark") ==> (dark <==> env.systemDark == Some(true))
    ensures dark <==> env.rootHasDark || env.nearestTheme == Some("dark") || env.systemDark == Some(true)
  {
    if env.rootHasDark then true
    else if env.nearestTheme.Some? && env.nearestTheme.value == "dark" then true
    else OrElse(env.systemDark, false)
  }

  /**
   * A nearest `data-theme="light"` does not force light: the system
   * preference still decides, and a dark system preference wins.
   */
  lemma LightThemeFallsThrough(env: ThemeEnv)
    requires !env.rootHasDark && env.nearestTheme == Some("light")
    ensures IsDarkContext(env) == (env.systemDark == Some(true))
  {
  }

  /**
   * The `color` argument of `create`:
   * - Missing: `undefined` (the default "auto" applies) or `null`;
   * - Text: a string, meant to be "auto", "dark" or "light";
   * - Options: an options object `{mode, alpha, color}` as declared for
   *   TypeScript callers; its fields are never read.
   */
  datatype ColorArg =
    | Missing
    | Text(s: string)
    | Options(mode: Option<string>, alpha: Option<real>, color: Option<string>)

  /** `!color || color === "auto"`: the argument asks for detection. */
  predicate IsAutoRequest(c: ColorArg) {
    c.Missing? || c == Text("") || c == Text("auto")
  }

  /**
   * An automatic request becomes "dark" exactly in a dark context and
   * "light" otherwise; every other argument is returned unchanged.
   */
  function ResolveColor(c: ColorArg, env: ThemeEnv): (mode: ColorArg)
    ensures IsAutoRequest(c) ==> mode == Text("dark") || mode == Text("light")
    ensures IsAutoRequest(c) ==> (mode == Text("dark") <==> IsDarkContext(env))
    ensures !IsAutoRequest(c) ==> mode == c
  {
    match c
    case Missing => if IsDarkContext(env) then Text("dark") else Text("light")
    case Text(s) =>
      if s == "" || s == "auto" then (if IsDarkContext(env) then Text("dark") else Text("light"))
      else c
    case Options(_, _, _) => c
  }

  /** A resolved mode is never an automatic request, so resolving again changes nothing, in any context. */
  lemma ResolveColorIdempotent(c: ColorArg, env: ThemeEnv, other: ThemeEnv)
    ensures ResolveColor(ResolveColor(c, env), other) == ResolveColor(c, env)
  {
  }

  /** An explicit argument makes the result independent of the theme context. */
  lemma ExplicitColorIgnoresTheme(c: ColorArg, env1: ThemeEnv, env2: ThemeEnv)
    requires !IsAutoRequest(c)
    ensures ResolveColor(c, env1) == ResolveColor(c, env2)
  {
  }
}
