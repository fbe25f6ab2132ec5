// The shared Button component: prop defaults, the press guard, the choice of
// style keys, and the touchable's disabled and accessibility flags.

module Button {
  import opened Wrappers
  import Effects

  datatype Variant = Primary | Secondary | Text
  datatype Size = Large | Medium | Small

  /** The variant as it is spelled in style keys. */
  function VariantName(v: Variant): string {
    match v
    case Primary => "primary"
    case Secondary => "secondary"
    case Text => "text"
  }

  /** The size as it is spelled in style keys. */
  function SizeName(s: Size): string {
    match s
    case Large => "large"
    case Medium => "medium"
    case Small => "small"
  }

  /**
   * The props the model reads, each optional one `None` when the caller leaves
   * it out (icon and the style overrides are presentational and left out).
   */
  datatype ButtonProps = ButtonProps(
    title: string,
    variant: Option<Variant>,
    size: Option<Size>,
    disabled: Option<bool>,
    loading: Option<bool>,
    fullWidth: Option<bool>,
    hapticFeedback: Option<bool>,
    accessibilityLabel: Option<string>)

  /** The props after destructuring, defaults filled in. */
  datatype Config = Config(
    title: string,
    variant: Variant,
    size: Size,
    disabled: bool,
    loading: bool,
    fullWidth: bool,
    hapticFeedback: bool,
    accessibilityLabel: Option<string>)

  function GetOr<T>(o: Option<T>, default: T): T {
    match o
    case Some(v) => v
    case None => default
  }

  /**
   * Destructuring with defaults: each prop left out gets its own default
   * (primary, medium, not disabled, not loading, not full width, haptics on),
   * and each prop given is used as given.
   */
  function Resolve(p: ButtonProps): (c: Config)
    ensures c.title == p.title && c.accessibilityLabel == p.accessibilityLabel
    ensures p.variant.None? ==> c.variant == Primary
    ensures p.variant.Some? ==> c.variant == p.variant.value
    ensures p.size.None? ==> c.size == Medium
    ensures p.size.Some? ==> c.size == p.size.value
    ensures p.disabled.None? ==> !c.disabled
    ensures p.disabled.Some? ==> c.disabled == p.disabled.value
    ensures p.loading.None? ==> !c.loading
    ensures p.loading.Some? ==> c.loading == p.loading.value
    ensures p.fullWidth.None? ==> !c.fullWidth
    ensures p.fullWidth.Some? ==> c.fullWidth == p.fullWidth.value
    ensures p.hapticFeedback.None? ==> c.hapticFeedback
    ensures p.hapticFeedback.Some? ==> c.hapticFeedback == p.hapticFeedback.value
  {
    Config(p.title, GetOr(p.variant, Primary), GetOr(p.size, Medium), GetOr(p.disabled, false),
           GetOr(p.loading, false), GetOr(p.fullWidth, false), GetOr(p.hapticFeedback, true),
           p.accessibilityLabel)
  }

  /** With every optional prop left out: a primary, medium, enabled button with haptics on. */
  lemma Defaults(title: string)
    ensures Resolve(ButtonProps(title, None, None, None, None, None, None, None))
      == Config(title, Primary, Medium, false, false, false, true, None)
  {
  }

  /** Every key the component's style sheet defines. */
  const StyleNames: set<string> := {
    "button", "fullWidth", "contentContainer", "iconContainer", "text",
    "primary", "secondary", "textButton",
    "primaryDisabled", "secondaryDisabled", "textDisabled",
    "primaryText", "secondaryText", "textText",
    "primaryTextDisabled", "secondaryTextDisabled", "textTextDisabled",
    "largeButton", "mediumButton", "smallButton",
    "largeText", "mediumText", "smallText"
  }

  /**
   * The key getButtonStyles spreads last, so the one that wins: the disabled
   * key whenever the button is disabled, whatever its variant; otherwise
   * `textButton` for the text variant (whose plain name `text` is the label
   * style) and the variant's own key for the others.
   */
  function ContainerVariantKey(c: Config): string {
    if c.disabled then VariantName(c.variant) + "Disabled"
    else if c.variant == Text then "textButton"
    else VariantName(c.variant)
  }

  /** getButtonStyles: the style keys it spreads, in order; a later key overrides an earlier one. */
  function ButtonStyleKeys(c: Config): (keys: seq<string>)
    ensures |keys| == if c.fullWidth then 4 else 3
    ensures keys[0] == "button" && keys[1] == SizeName(c.size) + "Button"
    ensures c.fullWidth ==> keys[2] == "fullWidth"
    ensures keys[|keys| - 1] == ContainerVariantKey(c)
    ensures "fullWidth" in keys <==> c.fullWidth
  {
    ["button", SizeName(c.size) + "Button"]
      + (if c.fullWidth then ["fullWidth"] else [])
      + [ContainerVariantKey(c)]
  }

  /** getTextStyles: the text style keys it spreads, in order. */
  function TextStyleKeys(c: Config): (keys: seq<string>)
    ensures |keys| == 3 && keys[0] == "text" && keys[1] == SizeName(c.size) + "Text"
    ensures keys[2] == VariantName(c.variant) + (if c.disabled then "TextDisabled" else "Text")
  {
    var baseTextStyle := ["text", SizeName(c.size) + "Text"];
    if c.disabled then baseTextStyle + [VariantName(c.variant) + "TextDisabled"]
    else baseTextStyle + [VariantName(c.variant) + "Text"]
  }

  /**
   * The container key tells both the variant and the disabled flag apart: two
   * configurations with the same key agree on both, so disabling a button
   * always changes its key, and no two variants share one.
   */
  lemma ContainerKeyDeterminesLook(c: Config, d: Config)
    requires ContainerVariantKey(c) == ContainerVariantKey(d)
    ensures c.variant == d.variant && c.disabled == d.disabled
  {
    ContainerKeyLength(c);
    ContainerKeyLength(d);
  }

  /** The six container keys have six different lengths. */
  lemma ContainerKeyLength(c: Config)
    ensures |ContainerVariantKey(c)| ==
      match c.variant
      case Primary => if c.disabled then 15 else 7
      case Secondary => if c.disabled then 17 else 9
      case Text => if c.disabled then 12 else 10
  {
  }

  lemma SizeKeysDefined(s: Size)
    ensures SizeName(s) + "Button" in StyleNames && SizeName(s) + "Text" in StyleNames
  {
    match s
    case Large => assert SizeName(s) + "Button" == "largeButton" && SizeName(s) + "Text" == "largeText";
    case Medium => assert SizeName(s) + "Button" == "mediumButton" && SizeName(s) + "Text" == "mediumText";
    case Small => assert SizeName(s) + "Button" == "smallButton" && SizeName(s) + "Text" == "smallText";
  }

  lemma VariantKeysDefined(v: Variant)
    ensures VariantName(v) + "Disabled" in StyleNames
    ensures VariantName(v) + "Text" in StyleNames && VariantName(v) + "TextDisabled" in StyleNames
  {
    match v
    case Primary =>
      assert VariantName(v) + "Disabled" == "primaryDisabled";
      assert VariantName(v) + "Text" == "primaryText" && VariantName(v) + "TextDisabled" == "primaryTextDisabled";
    case Secondary =>
      assert VariantName(v) + "Disabled" == "secondaryDisabled";
      assert VariantName(v) + "Text" == "secondaryText" && VariantName(v) + "TextDisabled" == "secondaryTextDisabled";
    case Text =>
      assert VariantName(v) + "Disabled" == "textDisabled";
      assert VariantName(v) + "Text" == "textText" && VariantName(v) + "TextDisabled" == "textTextDisabled";
  }

  /** Every key the two style functions pick is one the style sheet defines. */
  lemma StyleKeysDefined(c: Config)
    ensures forall k :: k in ButtonStyleKeys(c) ==> k in StyleNames
    ensures forall k :: k in TextStyleKeys(c) ==> k in StyleNames
  {
    SizeKeysDefined(c.size);
    VariantKeysDefined(c.variant);
  }

  /** `loading` changes neither style: a loading button that is not disabled keeps its enabled look. */
  lemma StylesIgnoreLoading(c: Config, loading: bool)
    ensures ButtonStyleKeys(c.(loading := loading)) == ButtonStyleKeys(c)
    ensures TextStyleKeys(c.(loading := loading)) == TextStyleKeys(c)
  {
  }

  /** The touchable's `disabled`: `disabled || loading`. */
  predicate TouchableDisabled(c: Config) {
    c.disabled || c.loading
  }

  /** The touchable's `accessibilityState.disabled`: also `disabled || loading`. */
  predicate AccessibilityDisabled(c: Config) {
    c.disabled || c.loading
  }

  /** `accessibilityLabel || title`: an absent or empty label falls back to the title. */
  function AccessibilityLabel(c: Config): (announced: string)
    ensures c.accessibilityLabel.None? ==> announced == c.title
    ensures c.accessibilityLabel == Some("") ==> announced == c.title
    ensures c.accessibilityLabel.Some? && c.accessibilityLabel.value != "" ==> announced == c.accessibilityLabel.value
    ensures announced == "" ==> c.title == ""
  {
    match c.accessibilityLabel
    case Some(l) => if l != "" then l else c.title
    case None => c.title
  }

  /**
   * handlePress: nothing at all when disabled or loading; otherwise a Medium
   * haptic when haptic feedback is on, then exactly one call of onPress, last.
   */
  function Press(c: Config): (effects: seq<Effects.Effect>)
    ensures |effects| == if TouchableDisabled(c) then 0 else if c.hapticFeedback then 2 else 1
    ensures multiset(effects)[Effects.CallOnPress] == if TouchableDisabled(c) then 0 else 1
    ensures Effects.HasHaptic(effects) <==> !TouchableDisabled(c) && c.hapticFeedback
    ensures effects != [] ==> effects[|effects| - 1] == Effects.CallOnPress
    ensures forall i :: 0 <= i < |effects| && effects[i].Haptic? ==> effects[i].style == Effects.Medium
  {
    if c.disabled || c.loading then []
    else
      var effects := (if c.hapticFeedback then [Effects.Haptic(Effects.Medium)] else []) + [Effects.CallOnPress];
      assert c.hapticFeedback ==> effects[0].Haptic?;
      effects
  }

  /** The two disabled flags agree, and they hold exactly when a press does nothing. */
  lemma DisabledFlagsAgree(c: Config)
    ensures TouchableDisabled(c) == AccessibilityDisabled(c)
    ensures TouchableDisabled(c) <==> Press(c) == []
  {
  }

  /** The colour tokens the loading spinner uses. */
  datatype ColorToken = BackgroundColor | PrimaryColor

  /** What the button shows: a spinner while loading, otherwise the optional icon and the title. */
  datatype Content = Spinner(color: ColorToken) | Label(withIcon: bool, title: string)

  /** The spinner is the background colour on a primary button and the primary colour otherwise. */
  function ContentOf(c: Config, hasIcon: bool): (r: Content)
    ensures r.Spinner? <==> c.loading
    ensures r.Spinner? ==> (r.color == BackgroundColor <==> c.variant == Primary)
    ensures r.Label? ==> r.title == c.title && r.withIcon == hasIcon
  {
    if c.loading then Spinner(if c.variant == Primary then BackgroundColor else PrimaryColor)
    else Label(hasIcon, c.title)
  }
}
