/** The card's width by `numColumns` and its touch enablement. */
module Card {
  import opened Js

  /** Values from outside the component: the window width and the theme's spacing. */
  datatype Env = Env(windowWidth: real, gutters: real, small: real)

  datatype Props = Props(numColumns: Option<int>, hasOnPress: bool)

  datatype View = View(width: real, touchDisabled: bool)

  /** `numColumns` after `defaultProps`: 3 when absent. */
  function Columns(numColumns: Option<int>): (n: int)
    ensures numColumns.Some? ==> n == numColumns.value
    ensures numColumns.None? ==> n == 3
  {
    if numColumns.Some? then numColumns.value else 3
  }

  /** The row: the window less a gutter on each side. */
  function Row(env: Env): (w: real)
  {
    env.windowWidth - 2.0 * env.gutters
  }

  /**
   * The card width: three cards of `numColumns` 1 with two `small` gaps, or two
   * of `numColumns` 2 with one gap, fill the row; any other value fills it alone.
   */
  function Width(columns: int, env: Env): (w: real)
    ensures columns == 1 ==> 3.0 * w + 2.0 * env.small == Row(env)
    ensures columns == 2 ==> 2.0 * w + env.small == Row(env)
    ensures columns != 1 && columns != 2 ==> w == Row(env)
  {
    if columns == 1 then (env.windowWidth - env.gutters * 2.0 - env.small * 2.0) / 3.0
    else if columns == 2 then (env.windowWidth - env.gutters * 2.0 - env.small) / 2.0
    else env.windowWidth - env.gutters * 2.0
  }

  function Render(p: Props, env: Env): (v: View)
    ensures v.width == Width(Columns(p.numColumns), env)
    ensures v.touchDisabled <==> !p.hasOnPress
    ensures p.numColumns.None? ==> v.width == Row(env)
  {
    View(Width(Columns(p.numColumns), env), !p.hasOnPress)
  }

  /** With non-negative spacing and row, fewer-column cards are never wider than more-column ones. */
  lemma WidthGrowsWithColumns(env: Env)
    requires env.small >= 0.0 && Row(env) >= 0.0
    ensures Width(1, env) <= Width(2, env) <= Width(3, env)
  {
  }
}
