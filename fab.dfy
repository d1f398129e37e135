/**
 * The floating action button's `render` decisions: the button colour, the
 * background, text and border colours and border width per `type`, the
 * sizing and margins pushed onto its style lists, touch enablement, the
 * icon-or-spinner choice and the accessibility traits.
 */
module Fab {
  import opened Js
  import opened Theme
  import Icon

  /** The props `render` reads. `fabType` is the `type` prop. */
  datatype Props = Props(
    fabType: Option<string>,
    disabled: bool,
    loading: bool,
    icon: Icon.Source,
    colorOverride: Option<string>,
    labelText: Option<string>)

  /** Values from outside the component: theme entries, `Config` sizes, the hairline width. */
  datatype Env = Env(
    disabledOpacity: real,
    buttonBorderRadius: real,   // theme.borderRadius.button
    spacingLarge: real,
    fabSize: real,
    fabBorderRadius: real,
    fabFixedHeight: real,
    buttonIconSize: real,
    hairlineWidth: real)

  /** One entry of a style list, with the keys these lists set. */
  datatype Style = Style(
    width: Option<real>,
    height: Option<real>,
    borderRadius: Option<real>,
    alignSelfStretch: Option<bool>,
    marginLeft: Option<real>,
    marginRight: Option<real>)

  const NoStyle: Style := Style(None, None, None, None, None, None)

  /** `styles.fixed`, as far as these keys go: height 64 and square corners. */
  const FixedStyle: Style := Style(None, Some(64.0), Some(0.0), None, None, None)

  /** The button's look and behaviour as rendered. */
  datatype View = View(
    backgroundColor: Color,
    textColor: Color,
    borderColor: Color,
    borderWidth: real,
    button: Style,             // the flattened `buttonStyles`
    icon: Style,               // the flattened `iconStyle`
    textMargin: Option<real>,
    touchDisabled: bool,
    showIcon: bool,
    showSpinner: bool,
    showLabel: bool,
    accessibilityTraits: seq<string>)

  /** The `type` after `defaultProps`: `"solid"` when absent. */
  function EffectiveType(t: Option<string>): (k: string)
    ensures t.Some? ==> k == t.value
    ensures t.None? ==> k == "solid"
  {
    if t.Some? then t.value else "solid"
  }

  /** One key of two entries: the later entry's value when it sets the key. */
  function Pick<T>(earlier: Option<T>, later: Option<T>): (v: Option<T>)
  {
    if later.Some? then later else earlier
  }

  /** The names of the keys an entry sets. */
  function Keys(s: Style): (ks: set<string>)
  {
    (if s.width.Some? then {"width"} else {}) +
    (if s.height.Some? then {"height"} else {}) +
    (if s.borderRadius.Some? then {"borderRadius"} else {}) +
    (if s.alignSelfStretch.Some? then {"alignSelf"} else {}) +
    (if s.marginLeft.Some? then {"marginLeft"} else {}) +
    (if s.marginRight.Some? then {"marginRight"} else {})
  }

  /** Two style entries in a list: keys the later one sets win, the others keep the earlier value. */
  function Merge(a: Style, b: Style): (r: Style)
    ensures Keys(r) == Keys(a) + Keys(b)
    ensures (b.width.Some? ==> r.width == b.width) && (b.height.Some? ==> r.height == b.height) &&
            (b.borderRadius.Some? ==> r.borderRadius == b.borderRadius) &&
            (b.alignSelfStretch.Some? ==> r.alignSelfStretch == b.alignSelfStretch) &&
            (b.marginLeft.Some? ==> r.marginLeft == b.marginLeft) &&
            (b.marginRight.Some? ==> r.marginRight == b.marginRight)
    ensures (b.width.None? ==> r.width == a.width) && (b.height.None? ==> r.height == a.height) &&
            (b.borderRadius.None? ==> r.borderRadius == a.borderRadius) &&
            (b.alignSelfStretch.None? ==> r.alignSelfStretch == a.alignSelfStretch) &&
            (b.marginLeft.None? ==> r.marginLeft == a.marginLeft) &&
            (b.marginRight.None? ==> r.marginRight == a.marginRight)
    ensures b == NoStyle ==> r == a
    ensures a == NoStyle ==> r == b
  {
    Style(
      Pick(a.width, b.width),
      Pick(a.height, b.height),
      Pick(a.borderRadius, b.borderRadius),
      Pick(a.alignSelfStretch, b.alignSelfStretch),
      Pick(a.marginLeft, b.marginLeft),
      Pick(a.marginRight, b.marginRight))
  }

  /** A style list as the platform reads it: left to right, later keys overriding earlier. */
  function Flatten(styles: seq<Style>): (r: Style)
    ensures styles == [] ==> r == NoStyle
    ensures |styles| == 1 ==> r == styles[0]
    decreases |styles|
  {
    if styles == [] then NoStyle else Merge(styles[0], Flatten(styles[1..]))
  }

  /** A flattened list sets exactly the keys some entry of the list sets. */
  lemma {:induction false} FlattenKeys(styles: seq<Style>)
    ensures forall k :: k in Keys(Flatten(styles)) <==> exists i :: 0 <= i < |styles| && k in Keys(styles[i])
    decreases |styles|
  {
    if styles != [] {
      FlattenKeys(styles[1..]);
      assert forall i :: 1 <= i < |styles| ==> styles[i] == styles[1..][i - 1];
      forall k | k in Keys(Flatten(styles))
        ensures exists i :: 0 <= i < |styles| && k in Keys(styles[i])
      {
        if k !in Keys(styles[0]) {
          var j :| 0 <= j < |styles[1..]| && k in Keys(styles[1..][j]);
          assert k in Keys(styles[j + 1]);
        }
      }
    }
  }

  lemma MergeAssociative(a: Style, b: Style, c: Style)
    ensures Merge(Merge(a, b), c) == Merge(a, Merge(b, c))
  {
  }

  /** Pushing an entry onto a style list merges it over what the list already says. */
  lemma {:induction false} FlattenPush(styles: seq<Style>, s: Style)
    ensures Flatten(styles + [s]) == Merge(Flatten(styles), s)
    decreases |styles|
  {
    if styles == [] {
      assert [] + [s] == [s];
      assert Flatten([s]) == Merge(s, NoStyle);
    } else {
      assert (styles + [s])[1..] == styles[1..] + [s];
      FlattenPush(styles[1..], s);
      MergeAssociative(styles[0], Flatten(styles[1..]), s);
    }
  }

  /** A list of two entries reads as the second merged over the first. */
  lemma FlattenTwo(a: Style, b: Style)
    ensures Flatten([a, b]) == Merge(a, b)
  {
    assert [a, b][1..] == [b];
    assert [b][1..] == [];
    assert Flatten([b]) == Merge(b, NoStyle) == b;
  }

  /** The rendered FAB. */
  method Render(p: Props, env: Env) returns (v: View)
    ensures var buttonColor := if Truthy(p.colorOverride) then Css(p.colorOverride.value) else Themed(Primary);
      var k := EffectiveType(p.fabType);
      var filled := k == "standard" || k == "extended" || k == "fixed";
      && v.backgroundColor == (if filled then buttonColor else Transparent)
      && v.textColor == (var base := if filled then Themed(Surface) else buttonColor;
                         if p.disabled then WithAlpha(base, env.disabledOpacity) else base)
      && v.borderColor == (if k != "outline" then Transparent
                           else if p.disabled then WithAlpha(buttonColor, env.disabledOpacity)
                           else buttonColor)
      && v.borderWidth == (if k == "outline" then env.hairlineWidth else 0.0)
    ensures var k := EffectiveType(p.fabType);
      && (k == "standard" || k == "outline" ==>
            v.button.width == Some(env.fabSize) && v.button.height == Some(env.fabSize) &&
            v.button.borderRadius == Some(env.fabBorderRadius))
      && (k == "fixed" ==>
            v.button.width == None && v.button.height == Some(64.0) &&
            v.button.borderRadius == Some(0.0) && v.button.alignSelfStretch == Some(true))
      && (k != "standard" && k != "outline" && k != "fixed" ==>
            v.button.width == None && v.button.height == None &&
            v.button.borderRadius == Some(env.buttonBorderRadius))
      && (k == "extended" || k == "fixed" <==> v.textMargin.Some?)
      && (k == "extended" || k == "fixed" ==>
            v.textMargin == Some(env.spacingLarge) &&
            v.icon.marginLeft == Some(env.spacingLarge) && v.icon.marginRight == Some(-8.0))
      && (k != "extended" && k != "fixed" ==> v.icon.marginLeft == None && v.icon.marginRight == None)
      && v.icon.width == Some(env.buttonIconSize)
    ensures v.touchDisabled <==> p.disabled || p.loading
    ensures v.showIcon <==> Icon.NameTruthy(p.icon) && !p.loading
    ensures v.showSpinner <==> p.loading
    ensures !(v.showIcon && v.showSpinner)
    ensures v.showLabel <==> Truthy(p.labelText)
    ensures v.accessibilityTraits == if p.disabled then ["button", "disabled"] else ["button"]
    ensures p.fabType.None? ==>
              v.backgroundColor == Transparent && v.borderWidth == 0.0 && v.button.width == None
  {
    var kind := EffectiveType(p.fabType);
    var backgroundColor, borderColor, textColor, borderWidth;
    var buttonColor := if Truthy(p.colorOverride) then Css(p.colorOverride.value) else Themed(Primary);

    if kind == "standard" || kind == "extended" || kind == "fixed" {
      backgroundColor := buttonColor;
      if p.disabled {
        textColor := WithAlpha(Themed(Surface), env.disabledOpacity);
      } else {
        textColor := Themed(Surface);
      }
    } else {
      backgroundColor := Transparent;
      if p.disabled {
        textColor := WithAlpha(buttonColor, env.disabledOpacity);
      } else {
        textColor := buttonColor;
      }
    }

    if kind == "outline" {
      if p.disabled {
        borderColor := WithAlpha(buttonColor, env.disabledOpacity);
      } else {
        borderColor := buttonColor;
      }
      borderWidth := env.hairlineWidth;
    } else {
      borderColor := Transparent;
      borderWidth := 0.0;
    }

    var buttonStyle := NoStyle.(borderRadius := Some(env.buttonBorderRadius));
    var buttonStyles := [NoStyle, buttonStyle];
    var textMargin: Option<real> := None;
    var iconBase := NoStyle.(width := Some(env.buttonIconSize));
    var iconStyle := [iconBase, iconBase];

    if kind == "standard" || kind == "outline" {
      buttonStyle := buttonStyle.(width := Some(env.fabSize), height := Some(env.fabSize),
                                  borderRadius := Some(env.fabBorderRadius));
      // `buttonStyles` holds a reference to `buttonStyle`, so it sees the change
      buttonStyles := buttonStyles[1 := buttonStyle];
    }

    assert buttonStyles == [NoStyle, buttonStyle];
    FlattenTwo(NoStyle, buttonStyle);
    FlattenTwo(iconBase, iconBase);

    if kind == "extended" || kind == "fixed" {
      FlattenPush(iconStyle, NoStyle.(marginLeft := Some(env.spacingLarge), marginRight := Some(-8.0)));
      iconStyle := iconStyle + [NoStyle.(marginLeft := Some(env.spacingLarge), marginRight := Some(-8.0))];
      textMargin := Some(env.spacingLarge);
    }

    if kind == "fixed" {
      var stretched := NoStyle.(height := Some(env.fabFixedHeight), alignSelfStretch := Some(true));
      FlattenPush(buttonStyles, stretched);
      buttonStyles := buttonStyles + [stretched];
      FlattenPush(buttonStyles, FixedStyle);
      buttonStyles := buttonStyles + [FixedStyle];
    }

    v := View(
      backgroundColor, textColor, borderColor, borderWidth,
      Flatten(buttonStyles), Flatten(iconStyle), textMargin,
      p.disabled || p.loading,
      Icon.NameTruthy(p.icon) && !p.loading,
      p.loading,
      Truthy(p.labelText),
      if p.disabled then ["button", "disabled"] else ["button"]);
  }
}
