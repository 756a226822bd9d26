/** The design-token record the editor holds: every field the strategy logic, the token
    panels and the exporters read or write. Colours are strings (`#RRGGBB` in practice, but
    nothing in the core validates them); sizes are integers (the sliders step by whole
    pixels, and the base size and base unit are kept integral too, although their number
    boxes would pass a fraction); ratios, line heights, letter spacing and the hover scale
    are reals. */
module Tokens {

  datatype ThemePair = ThemePair(canvas: string, text: string)

  datatype Palette = Palette(
    primary: string,
    secondary: string,
    accent: string,
    success: string,
    error: string,
    light: ThemePair,
    dark: ThemePair)

  datatype Typography = Typography(
    headingFont: string,
    bodyFont: string,
    baseSize: int,
    scaleRatio: real,
    lineHeightHeading: real,
    lineHeightBody: real,
    letterSpacing: real,
    textTransform: string,
    textDecoration: string)

  datatype Spacing = Spacing(baseUnit: int, maxContainerWidth: int)

  datatype Shadow = Shadow(x: int, y: int, blur: int)

  datatype Shape = Shape(borderRadius: int, linkCorners: bool, shadow: Shadow)

  datatype Interactive = Interactive(primaryHover: string, primaryFocus: string)

  /** One entry of the recommended sitemap. */
  datatype Page = Page(
    id: string,
    name: string,
    slug: string,
    required: bool,
    selected: bool,
    reason: string)

  datatype Layout = Layout(
    businessType: string,
    brandVibe: string,
    conversionGoal: string,
    activeFormula: string,
    sections: seq<string>,
    heroStyle: string,
    containerWidth: int,
    sectionSpacing: string,
    pages: seq<Page>)

  datatype ButtonVariant = ButtonVariant(bg: string, text: string, border: string)

  datatype Buttons = Buttons(
    radius: int,
    borderWidth: int,
    borderStyle: string,
    textTransform: string,
    fontWeight: string,
    hoverScale: real,
    applyShadow: bool,
    primaryVariant: ButtonVariant)

  datatype Inputs = Inputs(
    radius: int,
    borderWidth: int,
    focusRingWidth: int,
    baseBg: string,
    borderColor: string)

  datatype Animation = Animation(duration: int, easing: string)

  /** The whole record, generic in how its colours are held: as a value (`Palette`) for the
      pure exporters and resolvers, or as the shared mutable colours object for the
      in-place colour edits. */
  datatype System<C> = System(
    colors: C,
    typography: Typography,
    spacing: Spacing,
    shape: Shape,
    interactive: Interactive,
    layout: Layout,
    buttons: Buttons,
    inputs: Inputs,
    animation: Animation)

  type DesignSystem = System<Palette>
}
