/**
 * The TextField controller: its props and React state, the focus, blur and
 * change-text handlers guarded by `disabled`, `toggleFocus`, props sync, the
 * label and placeholder reactions of `componentDidUpdate`, the one deferred
 * placeholder timer, unmounting, and the colour and placeholder choices of
 * `render`.
 *
 * `Step` is the specification of one event; the class
 * `TextFieldController` performs the same event by updating its fields and
 * is proved to agree with `Step`.
 */
module TextField {
  import opened Js
  import opened Theme

  /** The props the controller reads; `disabled` and `error` default to false. */
  datatype Props = Props(
    disabled: bool,
    error: bool,
    labelText: Option<string>,
    placeholder: Option<string>,
    value: Option<string>,
    hasOnChange: bool)

  /** The target of the `labeled` animated value: 0 (label minimised) or 1 (restored). */
  datatype LabelTarget = Minimized | Restored

  /** The `_timer` slot: nothing pending, or the deferred `placeholder := props.placeholder`. */
  datatype Timer = Idle | ShowPending

  /** The measured label: whether `onLayout` has fired, and the width it reported. */
  datatype LabelLayout = LabelLayout(measured: bool, width: real)

  /** The React state of a TextField. */
  datatype State = State(
    focused: bool,
    value: Option<string>,
    placeholder: Option<string>,
    labeled: LabelTarget,
    labelLayout: LabelLayout)

  /** A mounted TextField: its current props, its state and its timer slot. */
  datatype Instance = Instance(props: Props, state: State, timer: Timer)

  /** What can happen to a mounted TextField. */
  datatype Event =
    | Focus
    | Blur
    | ChangeText(text: string)
    | ToggleFocus
    | SyncProps(next: Props)
    | LabelMeasured(width: real)
    | TimerFires
    | Unmount

  /** The instance after one event, and the text `onChange` was called with, if it was. */
  datatype Outcome = Outcome(next: Instance, notified: Option<string>)

  /** The instance after a run of events, and every text passed to `onChange`, in order. */
  datatype Trace = Trace(last: Instance, notified: seq<string>)

  // ---------------------------------------------------------------------------
  // The rules

  /** The label goes up when the field has text, has focus, or shows an error. */
  predicate LabelUp(value: Option<string>, focused: bool, error: bool)
    ensures !LabelUp(value, focused, error) <==> !focused && !error && (value == None || value == Some(""))
  {
    Truthy(value) || focused || error
  }

  /** The animation target: minimised (0) when the label goes up, restored (1) when it rests. */
  function LabelTargetFor(value: Option<string>, focused: bool, error: bool): (t: LabelTarget)
    ensures t == Minimized <==> LabelUp(value, focused, error)
    ensures t == Restored <==> !LabelUp(value, focused, error)
  {
    if LabelUp(value, focused, error) then Minimized else Restored
  }

  /** The placeholder is shown when focused, in error, or when there is no label to stand in for it. */
  predicate PlaceholderWanted(focused: bool, props: Props)
    ensures !PlaceholderWanted(focused, props) <==>
              !focused && !props.error && props.labelText.Some? && props.labelText.value != ""
  {
    focused || props.error || !Truthy(props.labelText)
  }

  /** `getDerivedStateFromProps`: a defined `value` prop replaces the state's value. */
  function DerivedValue(next: Props, prev: Option<string>): (v: Option<string>)
    ensures next.value.Some? ==> v == next.value
    ensures next.value.None? ==> v == prev
  {
    if next.value.Some? then next.value else prev
  }

  /** The instance a TextField mounts with. */
  function Initial(p: Props): (m: Instance)
    ensures m.props == p && m.timer == Idle
    ensures !m.state.focused && m.state.value == p.value
    ensures m.state.labeled == Minimized <==> Truthy(p.value) || p.error
    ensures p.error ==> m.state.placeholder == p.placeholder
    ensures !p.error ==> m.state.placeholder == Some("")
    ensures !m.state.labelLayout.measured
  {
    Instance(
      p,
      State(
        false,
        p.value,
        if p.error then p.placeholder else Some(""),
        if Truthy(p.value) || p.error then Minimized else Restored,
        LabelLayout(false, 0.0)),
      Idle)
  }

  /** `_showPlaceholder`: cancel the pending timer and schedule a new one. */
  function ScheduleShow(m: Instance): (r: Instance)
    ensures r.timer == ShowPending
    ensures r.props == m.props && r.state == m.state
  {
    m.(timer := ShowPending)
  }

  /** `_hidePlaceholder`: clear the placeholder now, leaving the timer as it is. */
  function ClearPlaceholder(m: Instance): (r: Instance)
    ensures r.state.placeholder == Some("")
    ensures r.props == m.props && r.timer == m.timer
    ensures r.state.(placeholder := m.state.placeholder) == m.state
  {
    m.(state := m.state.(placeholder := Some("")))
  }

  /**
   * `componentDidUpdate(prevProps, prevState)` on instance `m`: after a change
   * of focus or value the label targets the `LabelUp` rule; after a change of
   * focus or label the placeholder is scheduled when wanted and cleared
   * otherwise; nothing else moves.
   */
  function DidUpdate(prevProps: Props, prev: State, m: Instance): (r: Instance)
    ensures r.props == m.props
    ensures r.state.focused == m.state.focused && r.state.value == m.state.value
    ensures r.state.labelLayout == m.state.labelLayout
    ensures prev.focused != m.state.focused || prev.value != m.state.value ==>
              (r.state.labeled == Minimized <==> LabelUp(m.state.value, m.state.focused, m.props.error))
    ensures prev.focused == m.state.focused && prev.value == m.state.value ==>
              r.state.labeled == m.state.labeled
    ensures (prev.focused != m.state.focused || prevProps.labelText != m.props.labelText) &&
            PlaceholderWanted(m.state.focused, m.props) ==>
              r.timer == ShowPending && r.state.placeholder == m.state.placeholder
    ensures (prev.focused != m.state.focused || prevProps.labelText != m.props.labelText) &&
            !PlaceholderWanted(m.state.focused, m.props) ==>
              r.state.placeholder == Some("") && r.timer == m.timer
    ensures prev.focused == m.state.focused && prevProps.labelText == m.props.labelText ==>
              r.state.placeholder == m.state.placeholder && r.timer == m.timer
  {
    var m1 :=
      if prev.focused != m.state.focused || prev.value != m.state.value then
        m.(state := m.state.(labeled := LabelTargetFor(m.state.value, m.state.focused, m.props.error)))
      else m;
    if prev.focused != m.state.focused || prevProps.labelText != m.props.labelText then
      if PlaceholderWanted(m.state.focused, m.props) then ScheduleShow(m1) else ClearPlaceholder(m1)
    else m1
  }

  /** A `setState` that moves `m` to state `s`, followed by `componentDidUpdate`. */
  function Commit(m: Instance, s: State): (r: Instance)
    ensures r.props == m.props
    ensures r.state.focused == s.focused && r.state.value == s.value
    ensures r.state.labelLayout == s.labelLayout
    ensures s.focused == m.state.focused && s.value == m.state.value ==> r == m.(state := s)
  {
    DidUpdate(m.props, m.state, m.(state := s))
  }

  /**
   * One event. Only props sync changes the props, and `onChange` is called
   * only by change-text on an enabled field that has it, with that text.
   */
  function Step(m: Instance, e: Event): (o: Outcome)
    ensures !e.SyncProps? ==> o.next.props == m.props
    ensures e.SyncProps? ==> o.next.props == e.next
    ensures o.notified.Some? <==> e.ChangeText? && !m.props.disabled && m.props.hasOnChange
    ensures o.notified.Some? ==> o.notified.value == e.text
  {
    match e
    case Focus =>
      if m.props.disabled then Outcome(m, None)
      else Outcome(Commit(m, m.state.(focused := true)), None)
    case Blur =>
      if m.props.disabled then Outcome(m, None)
      else Outcome(Commit(m, m.state.(focused := false)), None)
    case ChangeText(text) =>
      if m.props.disabled then Outcome(m, None)
      else Outcome(Commit(m, m.state.(value := Some(text))),
                   if m.props.hasOnChange then Some(text) else None)
    case ToggleFocus =>
      Outcome(Commit(m, m.state.(focused := !m.state.focused)), None)
    case SyncProps(next) =>
      var synced := Instance(next, m.state.(value := DerivedValue(next, m.state.value)), m.timer);
      Outcome(DidUpdate(m.props, m.state, synced), None)
    case LabelMeasured(width) =>
      Outcome(Commit(m, m.state.(labelLayout := LabelLayout(true, width))), None)
    case TimerFires =>
      if m.timer == ShowPending then
        Outcome(Commit(m.(timer := Idle), m.state.(placeholder := m.props.placeholder)), None)
      else Outcome(m, None)
    case Unmount =>
      Outcome(m.(timer := Idle), None)
  }

  /** A run of events; `onChange` is called at most once per event. */
  function Run(m: Instance, es: seq<Event>): (t: Trace)
    ensures |t.notified| <= |es|
    decreases |es|
  {
    if es == [] then Trace(m, [])
    else
      var o := Step(m, es[0]);
      var rest := Run(o.next, es[1..]);
      Trace(rest.last, (if o.notified.Some? then [o.notified.value] else []) + rest.notified)
  }

  /** The texts of the change-text events of a run, in order. */
  function ChangedTexts(es: seq<Event>): (texts: seq<string>)
    ensures |texts| <= |es|
    decreases |es|
  {
    if es == [] then []
    else (if es[0].ChangeText? then [es[0].text] else []) + ChangedTexts(es[1..])
  }

  // ---------------------------------------------------------------------------
  // Properties of single events

  /** A disabled field ignores focus, blur and change-text entirely and never calls `onChange`. */
  lemma DisabledIgnoresInput(m: Instance, e: Event)
    requires m.props.disabled
    requires e.Focus? || e.Blur? || e.ChangeText?
    ensures Step(m, e) == Outcome(m, None)
  {
  }

  /** On an enabled field, change-text stores the text and calls `onChange` once with it, if present. */
  lemma ChangeTextStoresAndNotifies(m: Instance, text: string)
    requires !m.props.disabled
    ensures Step(m, ChangeText(text)).next.state.value == Some(text)
    ensures Step(m, ChangeText(text)).next.state.focused == m.state.focused
    ensures Step(m, ChangeText(text)).notified == if m.props.hasOnChange then Some(text) else None
  {
  }

  /** Focus and blur, when enabled, set `focused`; focusing a focused field changes nothing. */
  lemma FocusAndBlurSetFocused(m: Instance)
    requires !m.props.disabled
    ensures Step(m, Focus).next.state.focused && !Step(m, Blur).next.state.focused
    ensures m.state.focused ==> Step(m, Focus) == Outcome(m, None)
    ensures !m.state.focused ==> Step(m, Blur) == Outcome(m, None)
  {
  }

  /** `toggleFocus` flips `focused` whether or not the field is disabled, and twice restores it. */
  lemma ToggleFocusFlips(m: Instance)
    ensures Step(m, ToggleFocus).next.state.focused == !m.state.focused
    ensures Step(m, ToggleFocus).next.state.value == m.state.value
    ensures Run(m, [ToggleFocus, ToggleFocus]).last.state.focused == m.state.focused
    ensures Run(m, [ToggleFocus, ToggleFocus]).last.state.labeled ==
              LabelTargetFor(m.state.value, m.state.focused, m.props.error)
  {
    var m1 := Step(m, ToggleFocus).next;
    assert Run(m, [ToggleFocus, ToggleFocus]).last == Step(m1, ToggleFocus).next by {
      assert [ToggleFocus, ToggleFocus][1..] == [ToggleFocus];
    }
  }

  /** Props sync takes a defined `value` prop and otherwise keeps the state's value. */
  lemma SyncPropsValue(m: Instance, next: Props)
    ensures next.value.Some? ==> Step(m, SyncProps(next)).next.state.value == next.value
    ensures next.value.None? ==> Step(m, SyncProps(next)).next.state.value == m.state.value
    ensures Step(m, SyncProps(next)).next.props == next
    ensures Step(m, SyncProps(next)).next.state.focused == m.state.focused
  {
  }

  /**
   * After an input event or props sync, the label target obeys `LabelUp` if
   * focus or value changed, and does not move otherwise (a change of `error`
   * alone does not re-evaluate it).
   */
  lemma LabelFollowsRule(m: Instance, e: Event)
    requires e.Focus? || e.Blur? || e.ChangeText? || e.ToggleFocus? || e.SyncProps?
    ensures var n := Step(m, e).next;
      n.state.focused != m.state.focused || n.state.value != m.state.value ==>
        (n.state.labeled == Minimized <==> LabelUp(n.state.value, n.state.focused, n.props.error))
    ensures var n := Step(m, e).next;
      n.state.focused == m.state.focused && n.state.value == m.state.value ==>
        n.state.labeled == m.state.labeled
  {
  }

  /**
   * After an input event or props sync that changed focus or the label, the
   * placeholder show is pending if wanted, or the placeholder is `""` if not;
   * otherwise placeholder and timer are untouched.
   */
  lemma PlaceholderFollowsRule(m: Instance, e: Event)
    requires e.Focus? || e.Blur? || e.ChangeText? || e.ToggleFocus? || e.SyncProps?
    ensures var n := Step(m, e).next;
      (n.state.focused != m.state.focused || n.props.labelText != m.props.labelText) &&
      PlaceholderWanted(n.state.focused, n.props) ==>
        n.timer == ShowPending && n.state.placeholder == m.state.placeholder
    ensures var n := Step(m, e).next;
      (n.state.focused != m.state.focused || n.props.labelText != m.props.labelText) &&
      !PlaceholderWanted(n.state.focused, n.props) ==>
        n.state.placeholder == Some("") && n.timer == m.timer
    ensures var n := Step(m, e).next;
      n.state.focused == m.state.focused && n.props.labelText == m.props.labelText ==>
        n.state.placeholder == m.state.placeholder && n.timer == m.timer
  {
  }

  /** A state update that touches neither focus nor value triggers no reaction. */
  lemma CommitQuiet(m: Instance, s: State)
    requires s.focused == m.state.focused && s.value == m.state.value
    ensures Commit(m, s) == m.(state := s)
  {
  }

  /** A pending show, when it fires, sets the placeholder prop it reads at that moment. */
  lemma TimerFiresShows(m: Instance)
    requires m.timer == ShowPending
    ensures Step(m, TimerFires).next == m.(timer := Idle, state := m.state.(placeholder := m.props.placeholder))
  {
    CommitQuiet(m.(timer := Idle), m.state.(placeholder := m.props.placeholder));
  }

  /** After unmounting no timer is pending, so a later firing changes nothing. */
  lemma UnmountCancelsShow(m: Instance)
    ensures Step(m, Unmount).next.timer == Idle
    ensures Step(m, Unmount).next.state == m.state
    ensures Step(Step(m, Unmount).next, TimerFires) == Outcome(Step(m, Unmount).next, None)
  {
  }

  /**
   * Hiding does not cancel a pending show: on an enabled, labelled, error-free,
   * unfocused field, focusing and blurring before the timer fires leaves the
   * placeholder shown over an unfocused field whose rule says to hide it.
   */
  lemma HideLeavesShowPending(m: Instance)
    requires !m.props.disabled && !m.props.error && Truthy(m.props.labelText) && !m.state.focused
    ensures var t := Run(m, [Focus, Blur, TimerFires]).last;
      !t.state.focused && !PlaceholderWanted(t.state.focused, t.props) &&
      t.state.placeholder == m.props.placeholder && t.timer == Idle
  {
    var m1 := Step(m, Focus).next;
    var m2 := Step(m1, Blur).next;
    var m3 := Step(m2, TimerFires).next;
    assert m2.timer == ShowPending && m2.props == m.props;
    TimerFiresShows(m2);
    var es := [Focus, Blur, TimerFires];
    assert es[1..] == [Blur, TimerFires];
    assert es[1..][1..] == [TimerFires];
    assert Run(m2, [TimerFires]).last == m3;
    assert Run(m1, [Blur, TimerFires]).last == m3;
  }

  // ---------------------------------------------------------------------------
  // Properties of runs

  /**
   * A field that stays disabled, across any props syncs that keep it
   * disabled, never calls `onChange`, whatever it is sent.
   */
  lemma {:induction false} DisabledNeverNotifies(m: Instance, es: seq<Event>)
    requires m.props.disabled
    requires forall i :: 0 <= i < |es| && es[i].SyncProps? ==> es[i].next.disabled
    ensures Run(m, es).notified == []
    decreases |es|
  {
    if es != [] {
      DisabledNeverNotifies(Step(m, es[0]).next, es[1..]);
    }
  }

  /**
   * A field that stays enabled and has `onChange`, across any props syncs
   * that keep it so (a controlled field receiving its `value` back among
   * them), calls it exactly once per change-text event, with that event's
   * text, in order.
   */
  lemma {:induction false} EnabledNotifiesEachChange(m: Instance, es: seq<Event>)
    requires !m.props.disabled && m.props.hasOnChange
    requires forall i :: 0 <= i < |es| && es[i].SyncProps? ==> !es[i].next.disabled && es[i].next.hasOnChange
    ensures Run(m, es).notified == ChangedTexts(es)
    decreases |es|
  {
    if es != [] {
      EnabledNotifiesEachChange(Step(m, es[0]).next, es[1..]);
    }
  }

  // ---------------------------------------------------------------------------
  // Choices made by render

  /** The decisions `render` takes from props and state. */
  datatype Appearance = Appearance(
    inputPlaceholder: Option<string>,
    editable: bool,
    inputTextColor: Color,
    selectionColor: Color,       // activeColor
    placeholderColor: Color,
    outlineColor: Color,         // border of the solid type
    underlineColor: Color,       // the underline bar of the underline type
    backgroundColor: Color,
    leftIconColor: Color,
    assistiveTextColor: Color,
    labelOpacity: int)

  /** The colours, placeholder, editability and label opacity `render` chooses. */
  function Render(p: Props, s: State): (a: Appearance)
    ensures a.inputPlaceholder == if Truthy(p.labelText) then s.placeholder else p.placeholder
    ensures a.editable <==> !p.disabled
    ensures a.leftIconColor ==
              if p.error then Themed(Error) else if s.focused then Themed(Primary) else Themed(Light)
    ensures a.inputTextColor == Themed(Strong)
    ensures a.placeholderColor == Themed(Light)
    ensures p.disabled ==> a.selectionColor == Themed(Light) && a.backgroundColor == Themed(Divider)
    ensures !p.disabled ==>
              a.selectionColor == (if p.error then Themed(Error) else Themed(Primary)) &&
              a.backgroundColor == Themed(Background)
    ensures a.outlineColor ==
              if s.focused || p.error then a.selectionColor
              else if p.disabled then Transparent else Themed(Light)
    ensures a.underlineColor ==
              if p.error then Themed(Error)
              else if s.focused then a.selectionColor
              else if p.disabled then Transparent else Themed(Light)
    ensures a.assistiveTextColor == if p.error then Themed(Error) else Themed(Light)
    ensures a.labelOpacity == 0 <==> (Truthy(s.value) || s.focused) && !s.labelLayout.measured
    ensures a.labelOpacity == 0 || a.labelOpacity == 1
  {
    var inputTextColor := Themed(Strong);
    var activeColor := if p.disabled then Themed(Light) else if p.error then Themed(Error) else Themed(Primary);
    var placeholderColor := Themed(Light);
    var borderColor := if p.disabled then Transparent else Themed(Light);
    var underlineColor := if p.disabled then Transparent else Themed(Light);
    var backgroundColor := if p.disabled then Themed(Divider) else Themed(Background);
    var hasActiveOutline := s.focused || p.error;
    Appearance(
      if Truthy(p.labelText) then s.placeholder else p.placeholder,
      !p.disabled,
      inputTextColor,
      activeColor,
      placeholderColor,
      if hasActiveOutline then activeColor else borderColor,
      if p.error then Themed(Error) else if s.focused then activeColor else underlineColor,
      backgroundColor,
      if p.error then Themed(Error) else if s.focused then Themed(Primary) else Themed(Light),
      if p.error then Themed(Error) else Themed(Light),
      if Truthy(s.value) || s.focused then (if s.labelLayout.measured then 1 else 0) else 1)
  }

  /** An error colours the left icon, the underline and the helper text, focused or not. */
  lemma ErrorColoursEverything(p: Props, s: State)
    requires p.error
    ensures Render(p, s).leftIconColor == Themed(Error)
    ensures Render(p, s).underlineColor == Themed(Error)
    ensures Render(p, s).assistiveTextColor == Themed(Error)
    ensures !p.disabled ==> Render(p, s).outlineColor == Themed(Error)
  {
  }

  /**
   * On an enabled, error-free field the outline and the underline are primary
   * while focused and light otherwise.
   */
  lemma EnabledLinesFollowFocus(p: Props, s: State)
    requires !p.disabled && !p.error
    ensures s.focused ==> Render(p, s).outlineColor == Themed(Primary) && Render(p, s).underlineColor == Themed(Primary)
    ensures !s.focused ==> Render(p, s).outlineColor == Themed(Light) && Render(p, s).underlineColor == Themed(Light)
  {
  }

  /** A disabled, unfocused, error-free field has no visible outline or underline. */
  lemma DisabledHidesLines(p: Props, s: State)
    requires p.disabled && !p.error && !s.focused
    ensures Render(p, s).outlineColor == Transparent
    ensures Render(p, s).underlineColor == Transparent
  {
  }

  // ---------------------------------------------------------------------------
  // The component, updating its fields in place

  class TextFieldController {
    var props: Props
    var focused: bool
    var value: Option<string>
    var placeholder: Option<string>
    var labeled: LabelTarget
    var labelLayout: LabelLayout
    var timer: Timer

    /** The props, state and timer slot this object holds. */
    function AsInstance(): Instance
      reads this
    {
      Instance(props, State(focused, value, placeholder, labeled, labelLayout), timer)
    }

    /** Mounting: the initial `state` of the component, with no timer. */
    constructor (p: Props)
      ensures AsInstance() == Initial(p)
    {
      props := p;
      labeled := if Truthy(p.value) || p.error then Minimized else Restored;
      focused := false;
      placeholder := if p.error then p.placeholder else Some("");
      value := p.value;
      labelLayout := LabelLayout(false, 0.0);
      timer := Idle;
    }

    method ShowPlaceholder()
      modifies this
      ensures AsInstance() == ScheduleShow(old(AsInstance()))
    {
      // The one slot holds the new deferred show; any earlier one is cancelled.
      timer := ShowPending;
    }

    method HidePlaceholder()
      modifies this
      ensures AsInstance() == ClearPlaceholder(old(AsInstance()))
    {
      placeholder := Some("");
    }

    method MinimizeLabel()
      modifies this
      ensures AsInstance() == old(AsInstance()).(state := old(AsInstance()).state.(labeled := Minimized))
    {
      labeled := Minimized;
    }

    method RestoreLabel()
      modifies this
      ensures AsInstance() == old(AsInstance()).(state := old(AsInstance()).state.(labeled := Restored))
    {
      labeled := Restored;
    }

    method ComponentDidUpdate(prevProps: Props, prevState: State)
      modifies this
      ensures AsInstance() == DidUpdate(prevProps, prevState, old(AsInstance()))
    {
      if prevState.focused != focused || prevState.value != value {
        if Truthy(value) || focused || props.error {
          MinimizeLabel();
        } else {
          RestoreLabel();
        }
      }
      if prevState.focused != focused || prevProps.labelText != props.labelText {
        if focused || props.error || !Truthy(props.labelText) {
          ShowPlaceholder();
        } else {
          HidePlaceholder();
        }
      }
    }

    method HandleFocus()
      modifies this
      ensures AsInstance() == Step(old(AsInstance()), Focus).next
    {
      if props.disabled {
        return;
      }
      var prevState := AsInstance().state;
      focused := true;
      ComponentDidUpdate(props, prevState);
    }

    method HandleBlur()
      modifies this
      ensures AsInstance() == Step(old(AsInstance()), Blur).next
    {
      if props.disabled {
        return;
      }
      var prevState := AsInstance().state;
      focused := false;
      ComponentDidUpdate(props, prevState);
    }

    /** Returns the text `onChange` was called with, if it was called. */
    method HandleChangeText(text: string) returns (notified: Option<string>)
      modifies this
      ensures AsInstance() == Step(old(AsInstance()), ChangeText(text)).next
      ensures notified == Step(old(AsInstance()), ChangeText(text)).notified
    {
      if props.disabled {
        return None;
      }
      var prevState := AsInstance().state;
      value := Some(text);
      notified := if props.hasOnChange then Some(text) else None;
      ComponentDidUpdate(props, prevState);
    }

    method ToggleFocus()
      modifies this
      ensures AsInstance() == Step(old(AsInstance()), Event.ToggleFocus).next
    {
      var prevState := AsInstance().state;
      focused := !focused;
      ComponentDidUpdate(props, prevState);
    }

    /** New props from the parent: `getDerivedStateFromProps`, then `componentDidUpdate`. */
    method SyncProps(next: Props)
      modifies this
      ensures AsInstance() == Step(old(AsInstance()), Event.SyncProps(next)).next
    {
      var prevProps, prevState := props, AsInstance().state;
      props := next;
      value := DerivedValue(next, value);
      ComponentDidUpdate(prevProps, prevState);
    }

    /** The label's `onLayout`. */
    method HandleLabelLayout(width: real)
      modifies this
      ensures AsInstance() == Step(old(AsInstance()), LabelMeasured(width)).next
    {
      var prevState := AsInstance().state;
      labelLayout := LabelLayout(true, width);
      ComponentDidUpdate(props, prevState);
    }

    /** The deferred show, if one is pending, sets the placeholder from the current props. */
    method TimerFires()
      modifies this
      ensures AsInstance() == Step(old(AsInstance()), Event.TimerFires).next
    {
      if timer == ShowPending {
        timer := Idle;
        var prevState := AsInstance().state;
        placeholder := props.placeholder;
        ComponentDidUpdate(props, prevState);
      }
    }

    method ComponentWillUnmount()
      modifies this
      ensures AsInstance() == Step(old(AsInstance()), Unmount).next
    {
      timer := Idle;
    }
  }
}
