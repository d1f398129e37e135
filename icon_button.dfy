/**
 * The icon button's decisions: icon colour and size, ripple colour, touch
 * enablement, dimming, the icon-or-spinner choice and the accessibility
 * traits and states.
 */
module IconButton {
  import opened Js
  import opened Theme
  import Icon

  /** The props the button reads; `customColor` is the `color` prop. */
  datatype Props = Props(
    icon: Icon.Source,
    customColor: Option<string>,
    size: Option<real>,
    disabled: bool,
    loading: bool)

  /**
   * The entry `loading || (disabled && { opacity })` adds to the style list:
   * the literal `true` while loading, the dimming object when only disabled,
   * and a falsy value (ignored by the platform) otherwise.
   */
  datatype OpacityEntry = LiteralTrue | Dimmed(opacity: real) | Falsy

  /** The button as rendered; `accessibilityStates` is `None` when `undefined`. */
  datatype View = View(
    iconColor: Color,
    rippleColor: Color,
    iconSize: real,
    touchDisabled: bool,
    opacityEntry: OpacityEntry,
    accessibilityTraits: seq<string>,
    accessibilityStates: Option<seq<string>>,
    showIcon: bool,
    showSpinner: bool)

  /** The `size` default parameter. */
  const DefaultSize: real := 32.0

  function Render(p: Props, disabledOpacity: real): (v: View)
    ensures v.iconColor == if Truthy(p.customColor) then Css(p.customColor.value) else Themed(Text)
    ensures v.rippleColor == WithAlpha(v.iconColor, disabledOpacity)
    ensures v.iconSize == if p.size.Some? then p.size.value else DefaultSize
    ensures v.touchDisabled <==> p.disabled || p.loading
    ensures v.showIcon <==> Icon.NameTruthy(p.icon) && !p.loading
    ensures v.showSpinner <==> p.loading
    ensures !(v.showIcon && v.showSpinner)
    ensures v.opacityEntry == LiteralTrue <==> p.loading
    ensures v.opacityEntry.Dimmed? <==> !p.loading && p.disabled
    ensures v.opacityEntry.Dimmed? ==> v.opacityEntry.opacity == disabledOpacity
    ensures "disabled" in v.accessibilityTraits <==> p.disabled
    ensures "button" in v.accessibilityTraits
    ensures v.accessibilityStates.Some? <==> p.disabled
    ensures v.accessibilityStates.Some? ==> v.accessibilityStates.value == ["disabled"]
  {
    var iconColor := if Truthy(p.customColor) then Css(p.customColor.value) else Themed(Text);
    View(
      iconColor,
      WithAlpha(iconColor, disabledOpacity),
      if p.size.Some? then p.size.value else DefaultSize,
      p.disabled || p.loading,
      if p.loading then LiteralTrue else if p.disabled then Dimmed(disabledOpacity) else Falsy,
      if p.disabled then ["button", "disabled"] else ["button"],
      if p.disabled then Some(["disabled"]) else None,
      Icon.NameTruthy(p.icon) && !p.loading,
      p.loading)
  }

  /** Loading blocks touches but is not announced as disabled, and is not dimmed by the opacity object. */
  lemma LoadingIsNotDisabled(p: Props, disabledOpacity: real)
    requires p.loading && !p.disabled
    ensures Render(p, disabledOpacity).touchDisabled
    ensures "disabled" !in Render(p, disabledOpacity).accessibilityTraits
    ensures Render(p, disabledOpacity).accessibilityStates == None
    ensures !Render(p, disabledOpacity).opacityEntry.Dimmed?
  {
  }

  /** The button shows nothing exactly when it is not loading and its icon is falsy. */
  lemma EmptyButton(p: Props, disabledOpacity: real)
    ensures var v := Render(p, disabledOpacity);
      !v.showIcon && !v.showSpinner <==> !p.loading && !Icon.NameTruthy(p.icon)
  {
  }
}
