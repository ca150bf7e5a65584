/**
 The themed button abstract factory: a theme name selects a pair of button
 constructors (primary and secondary) of one theme, or no factory at all.
 The four button components are data: a variant with fixed colours and
 caption, plus the click handler it was given.
 */
module ButtonFactory {
  import opened Wrappers

  datatype Theme = Dark | Light
  datatype Role = Primary | Secondary

  /** The four button components. */
  datatype Variant = DarkPrimary | DarkSecondary | LightPrimary | LightSecondary

  function ThemeOf(v: Variant): Theme {
    match v
    case DarkPrimary => Dark
    case DarkSecondary => Dark
    case LightPrimary => Light
    case LightSecondary => Light
  }

  function RoleOf(v: Variant): Role {
    match v
    case DarkPrimary => Primary
    case DarkSecondary => Secondary
    case LightPrimary => Primary
    case LightSecondary => Secondary
  }

  /** The theme string a caller passes to select a theme. */
  function ThemeName(t: Theme): string {
    match t
    case Dark => "dark"
    case Light => "light"
  }

  /** A button's inline style. */
  datatype Style = Style(backgroundColor: string, color: string)

  /** The fixed colours of each variant: white text on the dark theme and
      black text on the light one. */
  function StyleOf(v: Variant): (s: Style)
    ensures s.color == "white" <==> ThemeOf(v) == Dark
    ensures s.color == "black" <==> ThemeOf(v) == Light
  {
    match v
    case DarkPrimary => Style("black", "white")
    case DarkSecondary => Style("darkgray", "white")
    case LightPrimary => Style("lightblue", "black")
    case LightSecondary => Style("lightgray", "black")
  }

  /** The capitalised theme word of a caption. */
  function ThemeTitle(t: Theme): string {
    match t
    case Dark => "Dark"
    case Light => "Light"
  }

  /** The capitalised role word of a caption. */
  function RoleTitle(r: Role): string {
    match r
    case Primary => "Primary"
    case Secondary => "Secondary"
  }

  /** The text each variant displays. */
  function Caption(v: Variant): string {
    match v
    case DarkPrimary => "Dark Primary Button"
    case DarkSecondary => "Dark Secondary Button"
    case LightPrimary => "Light Primary Button"
    case LightSecondary => "Light Secondary Button"
  }

  /** Each caption is the variant's theme, its role, then "Button". */
  lemma CaptionNamesThemeAndRole(v: Variant)
    ensures Caption(v) == ThemeTitle(ThemeOf(v)) + " " + RoleTitle(RoleOf(v)) + " Button"
  {
    match v
    case DarkPrimary => assert Caption(v) == "Dark" + " " + "Primary" + " Button";
    case DarkSecondary => assert Caption(v) == "Dark" + " " + "Secondary" + " Button";
    case LightPrimary => assert Caption(v) == "Light" + " " + "Primary" + " Button";
    case LightSecondary => assert Caption(v) == "Light" + " " + "Secondary" + " Button";
  }

  /** No two variants share a background colour or a caption. */
  lemma VariantsAreDistinguishable(v: Variant, w: Variant)
    requires v != w
    ensures StyleOf(v).backgroundColor != StyleOf(w).backgroundColor
    ensures Caption(v) != Caption(w)
  {
  }

  /** A rendered button: its variant and the click handler it forwards. */
  datatype Button<H> = Button(variant: Variant, onClick: H)

  /** The object `{createPrimaryButton, createSecondaryButton}`, each
      constructor represented by the variant it builds. */
  datatype Factory = Factory(primary: Variant, secondary: Variant)

  /** `createPrimaryButton(onClick)`: the factory's primary variant, holding
      the handler it was given unchanged. */
  function CreatePrimaryButton<H>(f: Factory, onClick: H): (b: Button<H>)
    ensures b.onClick == onClick && b.variant == f.primary
  {
    Button(f.primary, onClick)
  }

  /** `createSecondaryButton(onClick)`: the factory's secondary variant,
      holding the handler it was given unchanged. */
  function CreateSecondaryButton<H>(f: Factory, onClick: H): (b: Button<H>)
    ensures b.onClick == onClick && b.variant == f.secondary
  {
    Button(f.secondary, onClick)
  }

  /** `createButtonFactory(theme)`: a factory exactly for "dark" and "light"
      (None stands for the `null` returned otherwise), whose two
      constructors build the primary and the secondary variant of the named
      theme. */
  function CreateButtonFactory(theme: string): (r: Option<Factory>)
    ensures r.Some? <==> theme == "dark" || theme == "light"
    ensures r.Some? ==> ThemeName(ThemeOf(r.value.primary)) == theme
    ensures r.Some? ==> ThemeName(ThemeOf(r.value.secondary)) == theme
    ensures r.Some? ==> RoleOf(r.value.primary) == Primary && RoleOf(r.value.secondary) == Secondary
  {
    if theme == "dark" then Some(Factory(DarkPrimary, DarkSecondary))
    else if theme == "light" then Some(Factory(LightPrimary, LightSecondary))
    else None
  }

  /** Every variant is reachable: asking for its theme yields a factory whose
      constructor for its role builds exactly it. */
  lemma EveryVariantHasAFactory(v: Variant)
    ensures CreateButtonFactory(ThemeName(ThemeOf(v))).Some?
    ensures var f := CreateButtonFactory(ThemeName(ThemeOf(v))).value;
      (if RoleOf(v) == Primary then f.primary else f.secondary) == v
  {
  }

  /** The constructors pass the handler through unchanged and build a button
      of the requested theme and of their own role. */
  lemma ConstructorsForwardHandler<H>(theme: string, onClick: H)
    requires CreateButtonFactory(theme).Some?
    ensures var f := CreateButtonFactory(theme).value;
      && CreatePrimaryButton(f, onClick).onClick == onClick
      && CreateSecondaryButton(f, onClick).onClick == onClick
      && ThemeName(ThemeOf(CreatePrimaryButton(f, onClick).variant)) == theme
      && ThemeName(ThemeOf(CreateSecondaryButton(f, onClick).variant)) == theme
      && CreatePrimaryButton(f, onClick).variant != CreateSecondaryButton(f, onClick).variant
  {
  }
}
