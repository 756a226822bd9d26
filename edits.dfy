/** Single-field writes into the token record: the `{...system, [section]: {...system[section],
    [key]: value}}` spread both panels use. Each section is read by key (`...Field`), and each
    writer is specified against that reading: the written key now holds the new value and
    every other key of every section reads as before. */
module Edits {

  import opened Tokens
  import opened Wrappers

  /** What a single token field can hold. */
  datatype Value =
    | Num(n: int)
    | Ratio(x: real)
    | Str(s: string)
    | Flag(b: bool)
    | Tags(tags: seq<string>)
    | Pages(pages: seq<Page>)

  predicate SameKind(a: Value, b: Value)
  {
    (a.Num? && b.Num?) || (a.Ratio? && b.Ratio?) || (a.Str? && b.Str?) ||
    (a.Flag? && b.Flag?) || (a.Tags? && b.Tags?) || (a.Pages? && b.Pages?)
  }

  /** The sections `updateSystem` addresses by name. */
  datatype Section =
    | TypographySection
    | SpacingSection
    | ShapeSection
    | InteractiveSection
    | LayoutSection
    | ButtonsSection
    | InputsSection
    | AnimationSection

  // ---------------------------------------------------------------- reading by key

  function TypographyField(t: Typography, key: string): Option<Value>
  {
    match key
    case "headingFont" => Some(Str(t.headingFont))
    case "bodyFont" => Some(Str(t.bodyFont))
    case "baseSize" => Some(Num(t.baseSize))
    case "scaleRatio" => Some(Ratio(t.scaleRatio))
    case "lineHeightHeading" => Some(Ratio(t.lineHeightHeading))
    case "lineHeightBody" => Some(Ratio(t.lineHeightBody))
    case "letterSpacing" => Some(Ratio(t.letterSpacing))
    case "textTransform" => Some(Str(t.textTransform))
    case "textDecoration" => Some(Str(t.textDecoration))
    case _ => None
  }

  function SpacingField(s: Spacing, key: string): Option<Value>
  {
    match key
    case "baseUnit" => Some(Num(s.baseUnit))
    case "maxContainerWidth" => Some(Num(s.maxContainerWidth))
    case _ => None
  }

  function ShapeField(s: Shape, key: string): Option<Value>
  {
    match key
    case "borderRadius" => Some(Num(s.borderRadius))
    case "linkCorners" => Some(Flag(s.linkCorners))
    case _ => None
  }

  function InteractiveField(i: Interactive, key: string): Option<Value>
  {
    match key
    case "primaryHover" => Some(Str(i.primaryHover))
    case "primaryFocus" => Some(Str(i.primaryFocus))
    case _ => None
  }

  function LayoutField(l: Layout, key: string): Option<Value>
  {
    match key
    case "businessType" => Some(Str(l.businessType))
    case "brandVibe" => Some(Str(l.brandVibe))
    case "conversionGoal" => Some(Str(l.conversionGoal))
    case "activeFormula" => Some(Str(l.activeFormula))
    case "sections" => Some(Tags(l.sections))
    case "heroStyle" => Some(Str(l.heroStyle))
    case "containerWidth" => Some(Num(l.containerWidth))
    case "sectionSpacing" => Some(Str(l.sectionSpacing))
    case "pages" => Some(Pages(l.pages))
    case _ => None
  }

  function ButtonsField(b: Buttons, key: string): Option<Value>
  {
    match key
    case "radius" => Some(Num(b.radius))
    case "borderWidth" => Some(Num(b.borderWidth))
    case "borderStyle" => Some(Str(b.borderStyle))
    case "textTransform" => Some(Str(b.textTransform))
    case "fontWeight" => Some(Str(b.fontWeight))
    case "hoverScale" => Some(Ratio(b.hoverScale))
    case "applyShadow" => Some(Flag(b.applyShadow))
    case _ => None
  }

  function InputsField(i: Inputs, key: string): Option<Value>
  {
    match key
    case "radius" => Some(Num(i.radius))
    case "borderWidth" => Some(Num(i.borderWidth))
    case "focusRingWidth" => Some(Num(i.focusRingWidth))
    case "baseBg" => Some(Str(i.baseBg))
    case "borderColor" => Some(Str(i.borderColor))
    case _ => None
  }

  function AnimationField(a: Animation, key: string): Option<Value>
  {
    match key
    case "duration" => Some(Num(a.duration))
    case "easing" => Some(Str(a.easing))
    case _ => None
  }

  /** `system[section][key]` for the keys the panels edit. */
  function Field<C>(s: System<C>, section: Section, key: string): Option<Value>
  {
    match section
    case TypographySection => TypographyField(s.typography, key)
    case SpacingSection => SpacingField(s.spacing, key)
    case ShapeSection => ShapeField(s.shape, key)
    case InteractiveSection => InteractiveField(s.interactive, key)
    case LayoutSection => LayoutField(s.layout, key)
    case ButtonsSection => ButtonsField(s.buttons, key)
    case InputsSection => InputsField(s.inputs, key)
    case AnimationSection => AnimationField(s.animation, key)
  }

  /** A write the record can take: a known key, and a value of that key's kind. */
  predicate Writable<C>(s: System<C>, section: Section, key: string, v: Value)
  {
    Field(s, section, key).Some? && SameKind(Field(s, section, key).value, v)
  }

  // ---------------------------------------------------------------- writing one key

  function SetTypography(t: Typography, key: string, v: Value): (r: Typography)
    requires TypographyField(t, key).Some? && SameKind(TypographyField(t, key).value, v)
    ensures TypographyField(r, key) == Some(v)
    ensures forall k :: k != key ==> TypographyField(r, k) == TypographyField(t, k)
  {
    match key
    case "headingFont" => t.(headingFont := v.s)
    case "bodyFont" => t.(bodyFont := v.s)
    case "baseSize" => t.(baseSize := v.n)
    case "scaleRatio" => t.(scaleRatio := v.x)
    case "lineHeightHeading" => t.(lineHeightHeading := v.x)
    case "lineHeightBody" => t.(lineHeightBody := v.x)
    case "letterSpacing" => t.(letterSpacing := v.x)
    case "textTransform" => t.(textTransform := v.s)
    case "textDecoration" => t.(textDecoration := v.s)
  }

  function SetSpacing(s: Spacing, key: string, v: Value): (r: Spacing)
    requires SpacingField(s, key).Some? && SameKind(SpacingField(s, key).value, v)
    ensures SpacingField(r, key) == Some(v)
    ensures forall k :: k != key ==> SpacingField(r, k) == SpacingField(s, k)
  {
    match key
    case "baseUnit" => s.(baseUnit := v.n)
    case "maxContainerWidth" => s.(maxContainerWidth := v.n)
  }

  function SetShape(s: Shape, key: string, v: Value): (r: Shape)
    requires ShapeField(s, key).Some? && SameKind(ShapeField(s, key).value, v)
    ensures ShapeField(r, key) == Some(v) && r.shadow == s.shadow
    ensures forall k :: k != key ==> ShapeField(r, k) == ShapeField(s, k)
  {
    match key
    case "borderRadius" => s.(borderRadius := v.n)
    case "linkCorners" => s.(linkCorners := v.b)
  }

  function SetInteractive(i: Interactive, key: string, v: Value): (r: Interactive)
    requires InteractiveField(i, key).Some? && SameKind(InteractiveField(i, key).value, v)
    ensures InteractiveField(r, key) == Some(v)
    ensures forall k :: k != key ==> InteractiveField(r, k) == InteractiveField(i, k)
  {
    match key
    case "primaryHover" => i.(primaryHover := v.s)
    case "primaryFocus" => i.(primaryFocus := v.s)
  }

  function SetLayout(l: Layout, key: string, v: Value): (r: Layout)
    requires LayoutField(l, key).Some? && SameKind(LayoutField(l, key).value, v)
    ensures LayoutField(r, key) == Some(v)
    ensures forall k :: k != key ==> LayoutField(r, k) == LayoutField(l, k)
  {
    match key
    case "businessType" => l.(businessType := v.s)
    case "brandVibe" => l.(brandVibe := v.s)
    case "conversionGoal" => l.(conversionGoal := v.s)
    case "activeFormula" => l.(activeFormula := v.s)
    case "sections" => l.(sections := v.tags)
    case "heroStyle" => l.(heroStyle := v.s)
    case "containerWidth" => l.(containerWidth := v.n)
    case "sectionSpacing" => l.(sectionSpacing := v.s)
    case "pages" => l.(pages := v.pages)
  }

  function SetButtons(b: Buttons, key: string, v: Value): (r: Buttons)
    requires ButtonsField(b, key).Some? && SameKind(ButtonsField(b, key).value, v)
    ensures ButtonsField(r, key) == Some(v) && r.primaryVariant == b.primaryVariant
    ensures forall k :: k != key ==> ButtonsField(r, k) == ButtonsField(b, k)
  {
    match key
    case "radius" => b.(radius := v.n)
    case "borderWidth" => b.(borderWidth := v.n)
    case "borderStyle" => b.(borderStyle := v.s)
    case "textTransform" => b.(textTransform := v.s)
    case "fontWeight" => b.(fontWeight := v.s)
    case "hoverScale" => b.(hoverScale := v.x)
    case "applyShadow" => b.(applyShadow := v.b)
  }

  function SetInputs(i: Inputs, key: string, v: Value): (r: Inputs)
    requires InputsField(i, key).Some? && SameKind(InputsField(i, key).value, v)
    ensures InputsField(r, key) == Some(v)
    ensures forall k :: k != key ==> InputsField(r, k) == InputsField(i, k)
  {
    match key
    case "radius" => i.(radius := v.n)
    case "borderWidth" => i.(borderWidth := v.n)
    case "focusRingWidth" => i.(focusRingWidth := v.n)
    case "baseBg" => i.(baseBg := v.s)
    case "borderColor" => i.(borderColor := v.s)
  }

  function SetAnimation(a: Animation, key: string, v: Value): (r: Animation)
    requires AnimationField(a, key).Some? && SameKind(AnimationField(a, key).value, v)
    ensures AnimationField(r, key) == Some(v)
    ensures forall k :: k != key ==> AnimationField(r, k) == AnimationField(a, k)
  {
    match key
    case "duration" => a.(duration := v.n)
    case "easing" => a.(easing := v.s)
  }

  /** `updateSystem(section, key, value)`: exactly one key of one section changes; the
      colours, the shadow and the button variant are not addressed by it and stay as they were. */
  function UpdateSystem<C>(s: System<C>, section: Section, key: string, v: Value): (r: System<C>)
    requires Writable(s, section, key, v)
    ensures Field(r, section, key) == Some(v)
    ensures forall sec, k :: (sec, k) != (section, key) ==> Field(r, sec, k) == Field(s, sec, k)
    ensures r.colors == s.colors && r.shape.shadow == s.shape.shadow
    ensures r.buttons.primaryVariant == s.buttons.primaryVariant
  {
    match section
    case TypographySection => s.(typography := SetTypography(s.typography, key, v))
    case SpacingSection => s.(spacing := SetSpacing(s.spacing, key, v))
    case ShapeSection => s.(shape := SetShape(s.shape, key, v))
    case InteractiveSection => s.(interactive := SetInteractive(s.interactive, key, v))
    case LayoutSection => s.(layout := SetLayout(s.layout, key, v))
    case ButtonsSection => s.(buttons := SetButtons(s.buttons, key, v))
    case InputsSection => s.(inputs := SetInputs(s.inputs, key, v))
    case AnimationSection => s.(animation := SetAnimation(s.animation, key, v))
  }

  /** The keyed reading covers the whole record: two records that agree on their colours,
      their shadow, their button variant and on every keyed field are the same record. */
  lemma FieldsDetermineSystem<C>(a: System<C>, b: System<C>)
    requires a.colors == b.colors && a.shape.shadow == b.shape.shadow
    requires a.buttons.primaryVariant == b.buttons.primaryVariant
    requires forall sec, k :: Field(a, sec, k) == Field(b, sec, k)
    ensures a == b
  {
    forall k ensures TypographyField(a.typography, k) == TypographyField(b.typography, k) {
      assert Field(a, TypographySection, k) == Field(b, TypographySection, k);
    }
    TypographyDetermined(a.typography, b.typography);
    forall k ensures SpacingField(a.spacing, k) == SpacingField(b.spacing, k) {
      assert Field(a, SpacingSection, k) == Field(b, SpacingSection, k);
    }
    SpacingDetermined(a.spacing, b.spacing);
    forall k ensures ShapeField(a.shape, k) == ShapeField(b.shape, k) {
      assert Field(a, ShapeSection, k) == Field(b, ShapeSection, k);
    }
    ShapeDetermined(a.shape, b.shape);
    forall k ensures InteractiveField(a.interactive, k) == InteractiveField(b.interactive, k) {
      assert Field(a, InteractiveSection, k) == Field(b, InteractiveSection, k);
    }
    InteractiveDetermined(a.interactive, b.interactive);
    forall k ensures LayoutField(a.layout, k) == LayoutField(b.layout, k) {
      assert Field(a, LayoutSection, k) == Field(b, LayoutSection, k);
    }
    LayoutDetermined(a.layout, b.layout);
    forall k ensures ButtonsField(a.buttons, k) == ButtonsField(b.buttons, k) {
      assert Field(a, ButtonsSection, k) == Field(b, ButtonsSection, k);
    }
    ButtonsDetermined(a.buttons, b.buttons);
    forall k ensures InputsField(a.inputs, k) == InputsField(b.inputs, k) {
      assert Field(a, InputsSection, k) == Field(b, InputsSection, k);
    }
    InputsDetermined(a.inputs, b.inputs);
    forall k ensures AnimationField(a.animation, k) == AnimationField(b.animation, k) {
      assert Field(a, AnimationSection, k) == Field(b, AnimationSection, k);
    }
    AnimationDetermined(a.animation, b.animation);
  }

  lemma SpacingDetermined(a: Spacing, b: Spacing)
    requires forall k :: SpacingField(a, k) == SpacingField(b, k)
    ensures a == b
  {
    assert SpacingField(a, "baseUnit") == SpacingField(b, "baseUnit");
    assert SpacingField(a, "maxContainerWidth") == SpacingField(b, "maxContainerWidth");
  }

  lemma ShapeDetermined(a: Shape, b: Shape)
    requires a.shadow == b.shadow
    requires forall k :: ShapeField(a, k) == ShapeField(b, k)
    ensures a == b
  {
    assert ShapeField(a, "borderRadius") == ShapeField(b, "borderRadius");
    assert ShapeField(a, "linkCorners") == ShapeField(b, "linkCorners");
  }

  lemma InteractiveDetermined(a: Interactive, b: Interactive)
    requires forall k :: InteractiveField(a, k) == InteractiveField(b, k)
    ensures a == b
  {
    assert InteractiveField(a, "primaryHover") == InteractiveField(b, "primaryHover");
    assert InteractiveField(a, "primaryFocus") == InteractiveField(b, "primaryFocus");
  }

  lemma AnimationDetermined(a: Animation, b: Animation)
    requires forall k :: AnimationField(a, k) == AnimationField(b, k)
    ensures a == b
  {
    assert AnimationField(a, "duration") == AnimationField(b, "duration");
    assert AnimationField(a, "easing") == AnimationField(b, "easing");
  }

  lemma TypographyDetermined(a: Typography, b: Typography)
    requires forall k :: TypographyField(a, k) == TypographyField(b, k)
    ensures a == b
  {
    assert TypographyField(a, "headingFont") == TypographyField(b, "headingFont");
    assert TypographyField(a, "bodyFont") == TypographyField(b, "bodyFont");
    assert TypographyField(a, "baseSize") == TypographyField(b, "baseSize");
    assert TypographyField(a, "scaleRatio") == TypographyField(b, "scaleRatio");
    assert TypographyField(a, "lineHeightHeading") == TypographyField(b, "lineHeightHeading");
    assert TypographyField(a, "lineHeightBody") == TypographyField(b, "lineHeightBody");
    assert TypographyField(a, "letterSpacing") == TypographyField(b, "letterSpacing");
    assert TypographyField(a, "textTransform") == TypographyField(b, "textTransform");
    assert TypographyField(a, "textDecoration") == TypographyField(b, "textDecoration");
  }

  lemma LayoutDetermined(a: Layout, b: Layout)
    requires forall k :: LayoutField(a, k) == LayoutField(b, k)
    ensures a == b
  {
    assert LayoutField(a, "businessType") == LayoutField(b, "businessType");
    assert LayoutField(a, "brandVibe") == LayoutField(b, "brandVibe");
    assert LayoutField(a, "conversionGoal") == LayoutField(b, "conversionGoal");
    assert LayoutField(a, "activeFormula") == LayoutField(b, "activeFormula");
    assert LayoutField(a, "sections") == LayoutField(b, "sections");
    assert LayoutField(a, "heroStyle") == LayoutField(b, "heroStyle");
    assert LayoutField(a, "containerWidth") == LayoutField(b, "containerWidth");
    assert LayoutField(a, "sectionSpacing") == LayoutField(b, "sectionSpacing");
    assert LayoutField(a, "pages") == LayoutField(b, "pages");
  }

  lemma ButtonsDetermined(a: Buttons, b: Buttons)
    requires a.primaryVariant == b.primaryVariant
    requires forall k :: ButtonsField(a, k) == ButtonsField(b, k)
    ensures a == b
  {
    assert ButtonsField(a, "radius") == ButtonsField(b, "radius");
    assert ButtonsField(a, "borderWidth") == ButtonsField(b, "borderWidth");
    assert ButtonsField(a, "borderStyle") == ButtonsField(b, "borderStyle");
    assert ButtonsField(a, "textTransform") == ButtonsField(b, "textTransform");
    assert ButtonsField(a, "fontWeight") == ButtonsField(b, "fontWeight");
    assert ButtonsField(a, "hoverScale") == ButtonsField(b, "hoverScale");
    assert ButtonsField(a, "applyShadow") == ButtonsField(b, "applyShadow");
  }

  lemma InputsDetermined(a: Inputs, b: Inputs)
    requires forall k :: InputsField(a, k) == InputsField(b, k)
    ensures a == b
  {
    assert InputsField(a, "radius") == InputsField(b, "radius");
    assert InputsField(a, "borderWidth") == InputsField(b, "borderWidth");
    assert InputsField(a, "focusRingWidth") == InputsField(b, "focusRingWidth");
    assert InputsField(a, "baseBg") == InputsField(b, "baseBg");
    assert InputsField(a, "borderColor") == InputsField(b, "borderColor");
  }

  datatype ShadowAxis = X | Y | Blur

  function ShadowField(sh: Shadow, axis: ShadowAxis): int
  {
    match axis
    case X => sh.x
    case Y => sh.y
    case Blur => sh.blur
  }

  /** `{...system, shape: {...system.shape, shadow: {...system.shape.shadow, [axis]: v}}}`:
      one shadow component changes; every keyed field and the other components stay. */
  function SetShadow<C>(s: System<C>, axis: ShadowAxis, v: int): (r: System<C>)
    ensures ShadowField(r.shape.shadow, axis) == v
    ensures forall a :: a != axis ==> ShadowField(r.shape.shadow, a) == ShadowField(s.shape.shadow, a)
    ensures forall sec, k :: Field(r, sec, k) == Field(s, sec, k)
    ensures r.colors == s.colors && r.buttons.primaryVariant == s.buttons.primaryVariant
  {
    var sh := s.shape.shadow;
    var sh' := match axis
      case X => sh.(x := v)
      case Y => sh.(y := v)
      case Blur => sh.(blur := v);
    s.(shape := s.shape.(shadow := sh'))
  }
}
