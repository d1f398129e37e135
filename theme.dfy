/** The colour vocabulary of the theme, kept symbolic. */
module Theme {

  /** The named colour roles of `theme.colors`. */
  datatype Role =
    | Primary | Secondary | Surface | Background | Error | Divider
    | Strong | Medium | Light | Text

  /**
   * A colour as a component computes it: a theme role, a literal CSS string
   * (a colour prop or `"transparent"`), or the colour library's
   * `color(base).alpha(alpha).rgb().string()`, which stays uninterpreted.
   */
  datatype Color =
    | Themed(role: Role)
    | Css(css: string)
    | WithAlpha(base: Color, alpha: real)

  const Transparent: Color := Css("transparent")
}
