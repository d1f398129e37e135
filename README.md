# Widget decision logic of a themed UI component library

This project models the decision logic inside the library's widgets, apart
from rendering:

- the TextField controller's state machine (focus, blur, change-text,
  `toggleFocus`, props sync, the `componentDidUpdate` label and placeholder
  reactions, the single deferred placeholder timer, unmounting) and the
  colour, placeholder and editability choices of its `render`;
- the Icon component's dispatch on its `name` (falsy check, `set/glyph`
  parsing, the order of the `indexOf` call and the `typeof` tests);
- the Carousel's page indicator (which dot is active for a scroll offset and
  page width, each dot's colour, image-source normalisation, the scroll and
  layout handlers);
- the FAB and IconButton style and enablement tables;
- the Card's width by `numColumns` and its touch enablement.

Each source file is one module: `TextField`, `Icon`, `Carousel`, `Fab`,
`IconButton` and `Card`. Two small modules hold what they share: `Js`
(optional props and JavaScript truthiness of strings) and `Theme` (colours as
symbolic tokens: a theme role, a literal CSS string, or `WithAlpha(c, a)`,
which stands for the colour library's `color(c).alpha(a).rgb().string()` and
is never evaluated).

The TextField is specified by a pure transition function `Step` over an
`Instance` (props, React state, timer slot); each handler of the class
`TextFieldController` updates its fields as the component does (a `setState`
followed by `componentDidUpdate`) and is proved to land on `Step`'s result.
Lemmas about `Step` and about runs of events (`Run`) state the properties.
The FAB's `render` is a method that assigns branch by branch and pushes onto
style lists, as the source does; a style list is read by `Flatten`, later
entries overriding earlier ones.

## Model

| member | source | states |
|---|---|---|
| TextField.LabelUp | src/components/TextField.js:160 | The label rests only on an unfocused, error-free field whose value is undefined or `""`; otherwise it goes up. |
| TextField.LabelTargetFor | src/components/TextField.js:160-164 | The label's target is minimised (0) iff `LabelUp` holds, restored (1) iff it does not. |
| TextField.PlaceholderWanted | src/components/TextField.js:171 | The placeholder is not wanted iff the field is unfocused, error-free and has a non-empty label. |
| TextField.DerivedValue | src/components/TextField.js:139-143 | A defined `value` prop replaces the state's value; an undefined one keeps the previous value. |
| TextField.ScheduleShow | src/components/TextField.js:183-195 | After `_showPlaceholder` exactly one deferred show is pending; props and state are unchanged until it fires. |
| TextField.ClearPlaceholder | src/components/TextField.js:197-200 | `_hidePlaceholder` sets the placeholder to `""` now and changes nothing else, the pending timer included. |
| TextField.Commit | src/components/TextField.js:156-177 | A `setState` followed by `componentDidUpdate` keeps the props and the new focus, value and label layout; when focus and value are unchanged nothing else happens. |
| TextField.Initial | src/components/TextField.js:145-154 | The mount state: unfocused, value from props, no timer, label minimised iff value or error is truthy, placeholder the prop when in error and `""` otherwise, label not yet measured. |
| TextField.DidUpdate | src/components/TextField.js:156-177 | After a focus or value change the label is minimised iff value, focus or error; after a focus or label change the show is pending iff placeholder wanted, else placeholder `""` with the timer untouched; otherwise neither moves, and focus, value, layout and props never do. |
| TextField.Step | src/components/TextField.js:219-246 | Only props sync changes props, and it installs the new ones; `onChange` is called iff the event is change-text on an enabled field that has `onChange`, and then with the event's text. |
| TextField.Run | src/components/TextField.js:235-242 | Over a run of events, `onChange` is called at most once per event. |
| TextField.DisabledIgnoresInput | src/components/TextField.js:219-242 | On a disabled field, focus, blur and change-text leave the whole instance unchanged and call nothing. |
| TextField.ChangeTextStoresAndNotifies | src/components/TextField.js:235-242 | On an enabled field, change-text sets the value to the text, keeps focus, and calls `onChange` with the text iff `onChange` is present. |
| TextField.FocusAndBlurSetFocused | src/components/TextField.js:219-233 | Enabled focus sets `focused`, blur clears it; focusing a focused field, or blurring an unfocused one, changes nothing. |
| TextField.ToggleFocusFlips | src/components/TextField.js:244-246 | `toggleFocus` flips `focused` even when disabled, keeps the value, and twice restores `focused` with the label at the rule's target for the original focus. |
| TextField.SyncPropsValue | src/components/TextField.js:139-143 | Props sync adopts the new props; a defined `value` prop becomes the state value, an undefined one keeps the previous state value; focus is kept. |
| TextField.LabelFollowsRule | src/components/TextField.js:156-165 | After an input event or props sync that changed focus or value, the label is minimised iff value, focus or error is truthy; otherwise the label does not move (an error change alone does not re-evaluate it). |
| TextField.PlaceholderFollowsRule | src/components/TextField.js:167-176 | After an input event or props sync that changed focus or label, the show is pending iff focused, in error or unlabelled, else the placeholder is `""` and the timer left as it was; otherwise placeholder and timer do not move. |
| TextField.CommitQuiet | src/components/TextField.js:197-200 | A state update that touches neither focus nor value (hiding the placeholder, the timer, the label layout) triggers no further reaction. |
| TextField.TimerFiresShows | src/components/TextField.js:188-194 | A pending show, when it fires, sets the placeholder to the placeholder prop current at that moment and leaves no timer pending. |
| TextField.UnmountCancelsShow | src/components/TextField.js:179-181 | Unmounting leaves no timer pending and the state as it was, so a later firing does nothing. |
| TextField.HideLeavesShowPending | src/components/TextField.js:183-200 | Hiding does not cancel a pending show: on an enabled, labelled, error-free, unfocused field, focus, blur and the firing of the timer leave the placeholder prop shown on an unfocused field whose rule says hide. |
| TextField.DisabledNeverNotifies | src/components/TextField.js:235-242 | A disabled field whose props syncs all keep it disabled calls `onChange` for no run of events. |
| TextField.EnabledNotifiesEachChange | src/components/TextField.js:235-242 | An enabled field with `onChange`, whose props syncs all keep it enabled with `onChange` (a controlled field receiving its `value` back included), calls it exactly once per change-text event, with that text, in order. |
| TextField.Render | src/components/TextField.js:295-575 | The input's placeholder is the state's when a label is truthy and the prop otherwise; editable iff not disabled; the left icon is error, else primary when focused, else light; active, placeholder and background colours by disabled and error; the outline is the active colour when focused or in error, else transparent when disabled and light otherwise; the underline is the error colour in error, else the active colour when focused, else transparent when disabled and light otherwise; the helper text is error or light; the label's opacity is 0 iff it has text or focus and is not yet measured. |
| TextField.ErrorColoursEverything | src/components/TextField.js:377-384 | With an error the left icon, the underline and the helper text are the error colour whatever the focus, and so is the outline when enabled. |
| TextField.EnabledLinesFollowFocus | src/components/TextField.js:352-463 | On an enabled, error-free field the outline and the underline are primary while focused and light while not. |
| TextField.DisabledHidesLines | src/components/TextField.js:306-318 | A disabled, unfocused, error-free field has a transparent outline and underline. |
| TextField.TextFieldController.constructor | src/components/TextField.js:145-154 | The object starts in `Initial` for its props. |
| TextField.TextFieldController.ShowPlaceholder | src/components/TextField.js:183-195 | Cancels the pending timer and leaves exactly one pending show; nothing else changes. |
| TextField.TextFieldController.HidePlaceholder | src/components/TextField.js:197-200 | Sets the placeholder to `""` now and leaves the timer as it was. |
| TextField.TextFieldController.MinimizeLabel | src/components/TextField.js:212-217 | Targets the label at 0; nothing else changes. |
| TextField.TextFieldController.RestoreLabel | src/components/TextField.js:205-210 | Targets the label at 1; nothing else changes. |
| TextField.TextFieldController.ComponentDidUpdate | src/components/TextField.js:156-177 | Leaves the object in `DidUpdate` of the previous props and state and its old contents. |
| TextField.TextFieldController.HandleFocus | src/components/TextField.js:219-225 | Leaves the object in `Step`'s result for a focus event. |
| TextField.TextFieldController.HandleBlur | src/components/TextField.js:227-233 | Leaves the object in `Step`'s result for a blur event. |
| TextField.TextFieldController.HandleChangeText | src/components/TextField.js:235-242 | Leaves the object in `Step`'s result for change-text and returns the text `onChange` was called with, if any. |
| TextField.TextFieldController.ToggleFocus | src/components/TextField.js:244-246 | Leaves the object in `Step`'s result for `toggleFocus`. |
| TextField.TextFieldController.SyncProps | src/components/TextField.js:139-143 | Leaves the object in `Step`'s result for new props (derived value, then the update reactions). |
| TextField.TextFieldController.HandleLabelLayout | src/components/TextField.js:489-496 | Records the measured label width; no reaction follows. |
| TextField.TextFieldController.TimerFires | src/components/TextField.js:188-194 | Leaves the object in `Step`'s result for the timer firing. |
| TextField.TextFieldController.ComponentWillUnmount | src/components/TextField.js:179-181 | Cancels the pending timer; nothing else changes. |
| Icon.NameTruthy | src/components/Icon.js:36 | The names that render nothing are exactly `undefined`, `null`, `""`, `0` and `false`. |
| Icon.IndexOf | src/components/Icon.js:39 | `indexOf`: -1 iff the character is absent, otherwise a position holding it with none before. |
| Icon.Split | src/components/Icon.js:40 | `split`: at least one piece, and no piece contains the separator. |
| Icon.JoinSplit | src/components/Icon.js:40 | Joining the pieces of a split with the separator gives the string back. |
| Icon.SplitJoin | src/components/Icon.js:40 | Splitting a join of separator-free pieces gives the pieces back. |
| Icon.ParseName | src/components/Icon.js:38-41 | A name without `/` is a `MaterialIcons` glyph with the name unchanged; with one, set and glyph are slash-free and `set/glyph` is the whole name or is followed by a further `/` (later segments dropped). |
| Icon.Resolve | src/components/Icon.js:35-82 | As written: nothing iff the name is falsy; a glyph iff a non-empty string, with `ParseName`'s set and glyph; never an image; a size-by-size wrapper iff an array with no `"/"` element; a TypeError at `indexOf` for truthy numbers, `{ uri }` objects, elements and `true`, and at `split` for an array holding `"/"`. |
| Icon.ResolveIntended | src/components/Icon.js:43-81 | With the string test first: agrees on strings and gives a glyph iff a non-empty string; a size-by-size image tinted with the colour iff a truthy `{ uri }` or number; a size-by-size wrapper iff any other truthy name (an element, `true`, an array); never fails. |
| Icon.UriNameFails | src/components/Icon.js:39-52 | A `{ uri }` name fails at `indexOf` as written and is an image as intended. |
| Carousel.ImagesOrDefault | src/components/Carousel.js:22-31 | A given `images` prop is used as is; without one the carousel shows seven copies of the placeholder image URL. |
| Carousel.DefaultShowsSevenDots | src/components/Carousel.js:22-31 | A carousel without `images` has seven sources and seven dots, whatever the scroll position and palette. |
| Carousel.Source | src/components/Carousel.js:78 | A string image becomes `{ uri: image }`; an object passes through unchanged. |
| Carousel.SourceIdempotent | src/components/Carousel.js:78 | Normalising a source twice is normalising it once. |
| Carousel.Sources | src/components/Carousel.js:66-84 | One source per image, in order, each normalised. |
| Carousel.ActiveDot | src/components/Carousel.js:89-90 | A dot can be active only with a defined, non-zero width, and then only the dot nearest `offset / width`, halves rounding up. |
| Carousel.ActiveIsNearest | src/components/Carousel.js:89-90 | For a non-zero width, dot `i` is active iff `i` is `offset / width` rounded half up. |
| Carousel.AtMostOneActive | src/components/Carousel.js:89-90 | No two different dots are active at once. |
| Carousel.SomeDotActive | src/components/Carousel.js:88-90 | For a non-zero width, some dot of `n` is active iff `offset / width` lies in `[-0.5, n - 0.5)`. |
| Carousel.NoActiveDotWithoutWidth | src/components/Carousel.js:88-90 | Before the first layout (width undefined) or with width 0, no dot is active. |
| Carousel.DotColor | src/components/Carousel.js:92-109 | A truthy `dotColor` colours the dot; otherwise palette `"surface"` gives strong/light for active/inactive and any other palette background/surface. |
| Carousel.Dots | src/components/Carousel.js:88-124 | One dot per image; dot `i` is active by the interval rule; its colour is `DotColor` of its activity. |
| Carousel.DotColorOverrides | src/components/Carousel.js:93-94 | With a truthy `dotColor`, every dot has that colour regardless of activity. |
| Carousel.ActiveDotStandsOut | src/components/Carousel.js:96-108 | Without `dotColor`, an active and an inactive dot are never given the same theme role. |
| Carousel.Pager.constructor | src/components/Carousel.js:36-42 | The scroll offset starts at 0 and the width is undefined. |
| Carousel.Pager.HandleScroll | src/components/Carousel.js:44-46 | Sets the scroll offset to `contentOffset.x` and leaves the width. |
| Carousel.Pager.OnPageLayout | src/components/Carousel.js:48-51 | Sets the width from the layout and leaves the scroll offset. |
| Carousel.Pager.Indicator | src/components/Carousel.js:88-90 | One dot per image, active by the pager's own offset and width. |
| Fab.EffectiveType | src/components/FAB.js:92-95 | An absent `type` is `"solid"`; a given one is kept. |
| Fab.Merge | src/components/FAB.js:201-207 | In a style list, a later entry's keys win and the keys it leaves unset keep the earlier value; it sets the keys of both; an empty entry changes nothing. |
| Fab.Flatten | src/components/FAB.js:165-217 | An empty style list is no style and a one-entry list is that entry. |
| Fab.FlattenKeys | src/components/FAB.js:165-217 | A flattened style list sets exactly the keys some entry of the list sets. |
| Fab.FlattenPush | src/components/FAB.js:201-207 | Pushing an entry onto a style list overrides, key by key, what the list said before. |
| Fab.Render | src/components/FAB.js:97-236 | Button colour is the truthy override else primary; `standard`, `extended`, `fixed` are filled with surface text, all other types (the default `"solid"` too) transparent with button-colour text, alpha-ed when disabled; only `outline` has a button-colour (alpha-ed when disabled) hairline border; `standard` and `outline` are FAB-sized with the FAB radius, `fixed` stretches at height 64 with square corners; only `extended` and `fixed` get icon and text margins; touch disabled iff disabled or loading; icon iff truthy icon and not loading, spinner iff loading, never both; label iff truthy; traits add `"disabled"` iff disabled. |
| IconButton.Render | src/components/IconButton.js:80-124 | Icon colour is the truthy custom colour else `colors.text`, ripple its alpha; size defaults to 32; touch disabled iff disabled or loading; icon iff truthy icon and not loading, spinner iff loading, never both; the opacity entry is literally `true` iff loading and the dimming object iff disabled and not loading; traits and states mention `"disabled"` iff disabled. |
| IconButton.LoadingIsNotDisabled | src/components/IconButton.js:101-115 | Loading alone blocks touches but is not announced as disabled and is not dimmed by the opacity object. |
| IconButton.EmptyButton | src/components/IconButton.js:119-120 | The button shows neither icon nor spinner iff it is not loading and its icon is falsy. |
| Card.Columns | src/components/Card.js:21-23 | An absent `numColumns` is 3. |
| Card.Width | src/components/Card.js:35-45 | Three cards of `numColumns` 1 with two small gaps, or two of `numColumns` 2 with one, exactly fill the row (window less two gutters); any other value fills it alone. |
| Card.Render | src/components/Card.js:35-49 | The width by `numColumns` (row width by default); touch disabled iff `onPress` is absent. |
| Card.WidthGrowsWithColumns | src/components/Card.js:35-44 | With non-negative spacing and row, the `numColumns` 1 card is no wider than the 2 card, and that no wider than the full row. |

## Left out

- Rendering itself: the JSX trees, layout, positions, paddings and margins other than the FAB's sizing and margins, and the `StyleSheet` objects. They produce no decision beyond those modelled.
- TextField's animation: durations, `Animated.timing` and every `interpolate` output (label scale, translation, crossfade opacity). Only the 0/1 target of `labeled` is modelled. The solid container's padding tests `this.state.labeled`, an animated-value object that is always truthy; this is layout and is not modelled.
- Real timers: `setTimeout` and `clearTimeout` become one slot that is idle or holds the deferred show. The 50 ms delay and other timers are not modelled.
- React scheduling: each `setState` is committed, and `componentDidUpdate` runs, before the next event. `getDerivedStateFromProps` is modelled at props sync only. React 16.4 and later also run it after every `setState`; there, with a defined `value` prop, the value written by change-text is replaced by the prop in the same render.
- TextField's `setNativeProps`, `isFocused`, `clear`, `focus` and `blur` forward to the native input, which is foreign code.
- TextField's `type`, `multiline`, `numberOfLines`, icon names and the `...rest` props spread into the input. They only shape layout or pass through.
- The colour library: `WithAlpha` is a constructor, so the model treats alpha-ed colours as distinct terms and never computes them.
- `Config` sizes, `StyleSheet.hairlineWidth`, the window width, `I18nManager.isRTL` and all theme values are parameters. Numbers are reals: floating-point rounding, `NaN` names in Icon, and `NaN` scroll offsets are not modelled.
- Icon's optional `require` of the vector-icon package and its warning fallback (Icon.js:8-24) are module loading and I/O. The lookup `VectorIcons[iconSet]` is not modelled: a glyph carries its set name, unchecked.
- The FAB's `contentStyle` list is built but never rendered, because the content view uses `styles.content`. It is not modelled. The `Elevation` wrapper receives `style` twice, so the `elevation` prop never reaches it; this is also not modelled.
- The FAB's and IconButton's single-string `accessibilityTraits` (`"button"`) is modelled as the one-element list `["button"]`.
- IconButton's `hitSlop` constant, and its `...rest` spread after the accessibility props that could override them, are not modelled.
- The Carousel's image panels (their width and `aspectRatio`) and its dot sizes and elevation are layout.
- IconButton.Render: the default theme defines no `colors.text`. The model keeps it as the theme role `Text` and does not say what an undefined colour renders as.
- Config.placeholderImageURL: the default `images` list is modelled as seven copies of a URL given as a parameter, since `Config` is not part of this model.
- TextField's change-text event follows the component's own declared contract: `RenderProps` types `onChange` as `string => void` (TextField.js:25) and the prop docs say the changed text is passed (TextField.js:62). The model has `_handleChangeText` receive the text. The default `render` (TextField.js:136) passes it to `NativeTextInput` as `onChange`. What that native component hands its `onChange` is foreign code and is not modelled.
- Carousel.ActiveIsNearest, Carousel.SomeDotActive: these require a non-zero width; an undefined or zero width is covered by Carousel.NoActiveDotWithoutWidth.
- Portal, the theming provider and `withTheme`, the `.web.js` stubs, CardContainerShortImage, DefaultTheme and the example screen are plumbing, placeholders, layout or data.

## Findings

| source | as written | input that shows it | evidently intended | confidence | as-written member | corrected member |
|---|---|---|---|---|---|---|
| src/components/Icon.js:39-52 | `name.indexOf("/")` is called before `typeof name === "string"` is tested, so a non-string name fails before the image branch | `name = { uri: "a.png" }` (or an asset number such as `3`): TypeError, `name.indexOf is not a function` | test for a string first; a `{ uri }` object or a number renders a size-by-size image tinted with `color` | not executed; high (the image branch cannot be reached by any `{ uri }` object or number) | Icon.Resolve, with Icon.UriNameFails | Icon.ResolveIntended |
