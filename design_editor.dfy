/** The design editor (components/admin/DesignEditor.tsx): every control
    builds a new design from the current one by replacing one nested
    property, and the preview reads the card's corner radius from the
    layout. A missing `elements` record, or a missing record inside it,
    reads as an empty one, as the object spreads in the source do. */
module DesignEditor {
  import opened Common

  datatype Colors = Colors(
    primary: string, background: string, text: string, accent: string,
    gradient: Option<string>, gradientStart: Option<string>, gradientEnd: Option<string>)

  datatype Typography = Typography(fontFamily: string, headingFont: string)

  /** `opacity` is the slider's value; it is only stored. */
  datatype Layout = Layout(cardStyle: string, borderRadius: string, shadow: string, opacity: Option<real>, spacing: Option<string>)

  datatype TitleStyle = TitleStyle(color: Option<string>, fontSize: Option<string>, alignment: Option<string>)

  datatype DescriptionStyle = DescriptionStyle(color: Option<string>, fontSize: Option<string>, alignment: Option<string>)

  datatype AnswersStyle = AnswersStyle(
    backgroundColor: Option<string>, textColor: Option<string>, borderColor: Option<string>,
    hoverColor: Option<string>, selectedColor: Option<string>, borderRadius: Option<string>)

  datatype ButtonsStyle = ButtonsStyle(backgroundColor: Option<string>, textColor: Option<string>, borderRadius: Option<string>)

  datatype Elements = Elements(
    title: Option<TitleStyle>, description: Option<DescriptionStyle>,
    answers: Option<AnswersStyle>, buttons: Option<ButtonsStyle>)

  datatype Design = Design(colors: Colors, typography: Typography, layout: Layout, elements: Option<Elements>, backgroundImage: Option<string>)

  /** The design of a quiz that has none. */
  const DefaultDesign: Design := Design(
    Colors("#2563eb", "#f8fafc", "#0f172a", "#3b82f6", None, None, None),
    Typography("inter", "outfit"),
    Layout("glass", "xl", "lg", None, None),
    None, None)

  /** `quiz.design || defaultDesign`. */
  function InitialDesign(quizDesign: Option<Design>): (r: Design)
    ensures quizDesign.Some? ==> r == quizDesign.value
    ensures quizDesign.None? ==> r == DefaultDesign && r.colors.gradient.None? && r.elements.None?
  {
    quizDesign.GetOr(DefaultDesign)
  }

  /** A key of `DesignConfig['colors']`. */
  datatype ColorKey = Primary | Background | TextColor | Accent | Gradient | GradientStart | GradientEnd

  /** The value stored under a key; the three gradient keys may be unset. */
  function ColorOf(c: Colors, key: ColorKey): Option<string> {
    match key
    case Primary => Some(c.primary)
    case Background => Some(c.background)
    case TextColor => Some(c.text)
    case Accent => Some(c.accent)
    case Gradient => c.gradient
    case GradientStart => c.gradientStart
    case GradientEnd => c.gradientEnd
  }

  /** `handleColorChange(key, value)`. */
  function WithColor(d: Design, key: ColorKey, value: string): Design {
    var c := d.colors;
    d.(colors := match key
      case Primary => c.(primary := value)
      case Background => c.(background := value)
      case TextColor => c.(text := value)
      case Accent => c.(accent := value)
      case Gradient => c.(gradient := Some(value))
      case GradientStart => c.(gradientStart := Some(value))
      case GradientEnd => c.(gradientEnd := Some(value)))
  }

  /** A color change stores the value under its key and leaves every other
      key, the typography, the layout and the element overrides unchanged. */
  lemma ColorChangeReplacesOnlyKey(d: Design, key: ColorKey, value: string)
    ensures ColorOf(WithColor(d, key, value).colors, key) == Some(value)
    ensures forall k :: k != key ==> ColorOf(WithColor(d, key, value).colors, k) == ColorOf(d.colors, k)
    ensures WithColor(d, key, value).(colors := d.colors) == d
  {
  }

  /** The CSS the gradient pickers write. */
  function GradientCss(start: string, end: string): string {
    "linear-gradient(to right, " + start + ", " + end + ")"
  }

  /** The start picker: the end is the stored end or else the background. */
  function WithGradientStart(d: Design, start: string): Design {
    var end := OrElse(d.colors.gradientEnd, d.colors.background);
    d.(colors := d.colors.(gradientStart := Some(start), gradient := Some(GradientCss(start, end))))
  }

  /** The end picker: the start is the stored start or else the background. */
  function WithGradientEnd(d: Design, end: string): Design {
    var start := OrElse(d.colors.gradientStart, d.colors.background);
    d.(colors := d.colors.(gradientEnd := Some(end), gradient := Some(GradientCss(start, end))))
  }

  /** "Remove Gradient". */
  function WithoutGradient(d: Design): Design {
    d.(colors := d.colors.(gradient := None, gradientStart := None, gradientEnd := None))
  }

  /** Whether "Remove Gradient" is shown. */
  predicate RemoveGradientShown(d: Design) {
    Truthy(d.colors.gradient)
  }

  /** Setting the start stores it and rebuilds the gradient from it and the
      end in effect; nothing else changes. */
  lemma GradientStartSetsCss(d: Design, start: string)
    ensures WithGradientStart(d, start).colors.gradientStart == Some(start)
    ensures d.colors.gradientEnd.Some? && d.colors.gradientEnd.value != "" ==>
      WithGradientStart(d, start).colors.gradient == Some(GradientCss(start, d.colors.gradientEnd.value))
    ensures !Truthy(d.colors.gradientEnd) ==>
      WithGradientStart(d, start).colors.gradient == Some(GradientCss(start, d.colors.background))
    ensures WithGradientStart(d, start).colors.(gradient := d.colors.gradient, gradientStart := d.colors.gradientStart) == d.colors
    ensures WithGradientStart(d, start).(colors := d.colors) == d
  {
  }

  /** Setting the end mirrors setting the start. */
  lemma GradientEndSetsCss(d: Design, end: string)
    ensures WithGradientEnd(d, end).colors.gradientEnd == Some(end)
    ensures d.colors.gradientStart.Some? && d.colors.gradientStart.value != "" ==>
      WithGradientEnd(d, end).colors.gradient == Some(GradientCss(d.colors.gradientStart.value, end))
    ensures !Truthy(d.colors.gradientStart) ==>
      WithGradientEnd(d, end).colors.gradient == Some(GradientCss(d.colors.background, end))
    ensures WithGradientEnd(d, end).colors.(gradient := d.colors.gradient, gradientEnd := d.colors.gradientEnd) == d.colors
    ensures WithGradientEnd(d, end).(colors := d.colors) == d
  {
  }

  /** Picking a start and then an end gives the gradient between the two,
      whatever was stored before. */
  lemma StartThenEnd(d: Design, start: string, end: string)
    requires start != ""
    ensures WithGradientEnd(WithGradientStart(d, start), end).colors.gradient == Some(GradientCss(start, end))
    ensures RemoveGradientShown(WithGradientEnd(WithGradientStart(d, start), end))
  {
  }

  /** Removing the gradient clears its three properties only, hides the
      button, and the next pick starts again from the background. */
  lemma RemoveGradientClearsThree(d: Design, start: string)
    ensures WithoutGradient(d).colors.gradient.None? && WithoutGradient(d).colors.gradientStart.None?
    ensures WithoutGradient(d).colors.gradientEnd.None?
    ensures forall k :: k in {Primary, Background, TextColor, Accent} ==> ColorOf(WithoutGradient(d).colors, k) == ColorOf(d.colors, k)
    ensures WithoutGradient(d).(colors := d.colors) == d
    ensures !RemoveGradientShown(WithoutGradient(d))
    ensures WithGradientStart(WithoutGradient(d), start).colors.gradient == Some(GradientCss(start, d.colors.background))
  {
  }

  const EmptyElements: Elements := Elements(None, None, None, None)
  const EmptyTitle: TitleStyle := TitleStyle(None, None, None)
  const EmptyDescription: DescriptionStyle := DescriptionStyle(None, None, None)
  const EmptyAnswers: AnswersStyle := AnswersStyle(None, None, None, None, None, None)
  const EmptyButtons: ButtonsStyle := ButtonsStyle(None, None, None)

  function ElementsOf(d: Design): Elements { d.elements.GetOr(EmptyElements) }
  function TitleOf(d: Design): TitleStyle { ElementsOf(d).title.GetOr(EmptyTitle) }
  function DescriptionOf(d: Design): DescriptionStyle { ElementsOf(d).description.GetOr(EmptyDescription) }
  function AnswersOf(d: Design): AnswersStyle { ElementsOf(d).answers.GetOr(EmptyAnswers) }
  function ButtonsOf(d: Design): ButtonsStyle { ElementsOf(d).buttons.GetOr(EmptyButtons) }

  /** The five color overrides that have a Reset button. */
  datatype Override = TitleColor | AnswersBackground | AnswersText | ButtonsBackground | ButtonsText

  function OverrideOf(d: Design, o: Override): Option<string> {
    match o
    case TitleColor => TitleOf(d).color
    case AnswersBackground => AnswersOf(d).backgroundColor
    case AnswersText => AnswersOf(d).textColor
    case ButtonsBackground => ButtonsOf(d).backgroundColor
    case ButtonsText => ButtonsOf(d).textColor
  }

  /** `{ ...design, elements: { ...design.elements, e: { ...design.elements?.e, p: v } } }`
      for the override `o`: a color input stores `Some`, its Reset `None`. */
  function SetOverride(d: Design, o: Override, v: Option<string>): Design {
    var e := ElementsOf(d);
    d.(elements := Some(match o
      case TitleColor => e.(title := Some(TitleOf(d).(color := v)))
      case AnswersBackground => e.(answers := Some(AnswersOf(d).(backgroundColor := v)))
      case AnswersText => e.(answers := Some(AnswersOf(d).(textColor := v)))
      case ButtonsBackground => e.(buttons := Some(ButtonsOf(d).(backgroundColor := v)))
      case ButtonsText => e.(buttons := Some(ButtonsOf(d).(textColor := v)))))
  }

  /** A Reset button. */
  function Reset(d: Design, o: Override): Design {
    SetOverride(d, o, None)
  }

  /** What an override edit must leave alone: every element property that
      is not one of the five overrides. */
  function OtherElementProperties(d: Design): (TitleStyle, DescriptionStyle, AnswersStyle, ButtonsStyle) {
    (TitleOf(d).(color := None),
     DescriptionOf(d),
     AnswersOf(d).(backgroundColor := None, textColor := None),
     ButtonsOf(d).(backgroundColor := None, textColor := None))
  }

  /** An override edit sets that override and keeps the four others, the
      sibling properties of every element, the colors, the typography and
      the layout. */
  lemma SetOverrideOnlyThatOne(d: Design, o: Override, v: Option<string>)
    ensures OverrideOf(SetOverride(d, o, v), o) == v
    ensures forall p :: p != o ==> OverrideOf(SetOverride(d, o, v), p) == OverrideOf(d, p)
    ensures OtherElementProperties(SetOverride(d, o, v)) == OtherElementProperties(d)
    ensures SetOverride(d, o, v).(elements := d.elements) == d
  {
  }

  /** Resetting clears the override, resetting twice is resetting once, and
      a reset after a color pick is a reset of the original design. */
  lemma ResetIdempotent(d: Design, o: Override, color: string)
    ensures OverrideOf(Reset(d, o), o).None?
    ensures Reset(Reset(d, o), o) == Reset(d, o)
    ensures Reset(SetOverride(d, o, Some(color)), o) == Reset(d, o)
  {
  }

  /** An alignment button sets the title's and the description's alignment. */
  function WithAlignment(d: Design, align: string): Design {
    var e := ElementsOf(d);
    d.(elements := Some(e.(
      title := Some(TitleOf(d).(alignment := Some(align))),
      description := Some(DescriptionOf(d).(alignment := Some(align))))))
  }

  /** Both alignments become the chosen one; their other properties, the
      overrides and the rest of the design stay. */
  lemma AlignmentSetsBoth(d: Design, align: string)
    ensures TitleOf(WithAlignment(d, align)).alignment == Some(align)
    ensures DescriptionOf(WithAlignment(d, align)).alignment == Some(align)
    ensures TitleOf(WithAlignment(d, align)).(alignment := TitleOf(d).alignment) == TitleOf(d)
    ensures DescriptionOf(WithAlignment(d, align)).(alignment := DescriptionOf(d).alignment) == DescriptionOf(d)
    ensures AnswersOf(WithAlignment(d, align)) == AnswersOf(d) && ButtonsOf(WithAlignment(d, align)) == ButtonsOf(d)
    ensures WithAlignment(d, align).(elements := d.elements) == d
  {
  }

  /** The preview card's `borderRadius` for the layout's radius name. */
  function PreviewRadius(r: string): string {
    if r == "full" then "2rem"
    else if r == "xl" then "1rem"
    else if r == "lg" then "0.75rem"
    else if r == "md" then "0.5rem"
    else if r == "sm" then "0.25rem"
    else "0"
  }

  /** The five named radii map to their sizes; every other name, `none`
      included, gives no rounding, and only those do. */
  lemma PreviewRadiusTable(r: string)
    ensures PreviewRadius("full") == "2rem" && PreviewRadius("xl") == "1rem" && PreviewRadius("lg") == "0.75rem"
    ensures PreviewRadius("md") == "0.5rem" && PreviewRadius("sm") == "0.25rem" && PreviewRadius("none") == "0"
    ensures PreviewRadius(r) == "0" <==> r !in ["full", "xl", "lg", "md", "sm"]
    ensures PreviewRadius(DefaultDesign.layout.borderRadius) == "1rem"
  {
  }
}
