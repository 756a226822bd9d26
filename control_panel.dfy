/** The token panel: the interactive-colour update, the contrast badge, the single-field
    controls of the typography, spacing and shape groups, and the tab strip of the
    interactive group. The path-walking colour write of the same panel is
    `ColorStore.UpdateColor`. Every edit here is a spread update of the record, so each is a
    function from the old record to the one handed to `onChange`. */
module ControlPanel {

  import opened Tokens
  import opened Wrappers
  import opened Edits

  // ---------------------------------------------------------------- interactive colours

  datatype InteractiveKey = PrimaryHover | PrimaryFocus

  function KeyName(key: InteractiveKey): string
  {
    match key
    case PrimaryHover => "primaryHover"
    case PrimaryFocus => "primaryFocus"
  }

  function InteractiveColor(i: Interactive, key: InteractiveKey): string
  {
    match key
    case PrimaryHover => i.primaryHover
    case PrimaryFocus => i.primaryFocus
  }

  /** `updateInteractive(key, value)`: the key now holds the value, the other interactive
      colour and every other section are as before. */
  function UpdateInteractive<C>(s: System<C>, key: InteractiveKey, v: string): (r: System<C>)
    ensures r == s.(interactive := r.interactive)
    ensures InteractiveColor(r.interactive, key) == v
    ensures forall other :: other != key ==>
              InteractiveColor(r.interactive, other) == InteractiveColor(s.interactive, other)
  {
    match key
    case PrimaryHover => s.(interactive := s.interactive.(primaryHover := v))
    case PrimaryFocus => s.(interactive := s.interactive.(primaryFocus := v))
  }

  /** The panel's interactive update is the generic single-key write of the workbench,
      addressed by the key's name. */
  lemma UpdateInteractiveIsFieldWrite<C>(s: System<C>, key: InteractiveKey, v: string)
    ensures UpdateInteractive(s, key, v) == UpdateSystem(s, InteractiveSection, KeyName(key), Str(v))
  {
    var a := UpdateInteractive(s, key, v);
    var b := UpdateSystem(s, InteractiveSection, KeyName(key), Str(v));
    forall sec, k ensures Field(a, sec, k) == Field(b, sec, k) {
      if sec == InteractiveSection && k == KeyName(key) {
        assert Field(a, sec, k) == Some(Str(v));
      } else {
        assert Field(b, sec, k) == Field(s, sec, k);
      }
    }
    FieldsDetermineSystem(a, b);
  }

  /** Updates of the two interactive colours do not interfere: they commute. */
  lemma InteractiveUpdatesCommute<C>(s: System<C>, v: string, w: string)
    ensures UpdateInteractive(UpdateInteractive(s, PrimaryHover, v), PrimaryFocus, w) ==
            UpdateInteractive(UpdateInteractive(s, PrimaryFocus, w), PrimaryHover, v)
  {
  }

  // ---------------------------------------------------------------- contrast badge

  datatype Badge = Pass | Fail

  /** The badge colour for a contrast ratio: red below 4.5:1, green from 4.5:1 up. */
  function BadgeFor(ratio: real): (b: Badge)
    ensures b == Pass <==> ratio >= 4.5
  {
    if ratio < 4.5 then Fail else Pass
  }

  /** A higher ratio never turns a passing badge into a failing one. */
  lemma BadgeMonotone(lo: real, hi: real)
    requires lo <= hi && BadgeFor(lo) == Pass
    ensures BadgeFor(hi) == Pass
  {
  }

  /** The badge beside a theme's text colour: text over canvas, as the opaque contrast
      function measures it. */
  function ThemeBadge(t: ThemePair, contrast: (string, string) -> real): (b: Badge)
    ensures b == Pass <==> contrast(t.text, t.canvas) >= 4.5
  {
    BadgeFor(contrast(t.text, t.canvas))
  }

  // ---------------------------------------------------------------- single-field controls

  /** The controls of the typography, spacing and shape groups, each with the value its
      input produced. */
  datatype Control =
    | HeadingFont(font: string)
    | BodyFont(font: string)
    | BaseSize(px: int)
    | ScaleRatio(ratio: real)
    | LineHeightHeading(lh: real)
    | LineHeightBody(lh: real)
    | BaseUnit(px: int)
    | MaxContainerWidth(px: int)
    | BorderRadius(px: int)
    | LinkCorners(on: bool)
    | ShadowX(px: int)
    | ShadowY(px: int)
    | ShadowBlur(px: int)

  predicate IsShadowControl(c: Control)
  {
    c.ShadowX? || c.ShadowY? || c.ShadowBlur?
  }

  /** The section, key and value a non-shadow control writes. */
  function Target(c: Control): (t: (Section, string, Value))
    requires !IsShadowControl(c)
  {
    match c
    case HeadingFont(f) => (TypographySection, "headingFont", Str(f))
    case BodyFont(f) => (TypographySection, "bodyFont", Str(f))
    case BaseSize(n) => (TypographySection, "baseSize", Num(n))
    case ScaleRatio(x) => (TypographySection, "scaleRatio", Ratio(x))
    case LineHeightHeading(x) => (TypographySection, "lineHeightHeading", Ratio(x))
    case LineHeightBody(x) => (TypographySection, "lineHeightBody", Ratio(x))
    case BaseUnit(n) => (SpacingSection, "baseUnit", Num(n))
    case MaxContainerWidth(n) => (SpacingSection, "maxContainerWidth", Num(n))
    case BorderRadius(n) => (ShapeSection, "borderRadius", Num(n))
    case LinkCorners(b) => (ShapeSection, "linkCorners", Flag(b))
  }

  /** The shadow axis a shadow slider moves and the value it sets. */
  function ShadowTarget(c: Control): (ShadowAxis, int)
    requires IsShadowControl(c)
  {
    match c
    case ShadowX(n) => (X, n)
    case ShadowY(n) => (Y, n)
    case ShadowBlur(n) => (Blur, n)
  }

  /** The record an input of the control hands to `onChange`. A non-shadow control sets its
      one key and leaves every other key, the shadow and the colours alone; a shadow slider
      sets its axis, keeps the other two and leaves every key alone. */
  function ApplyControl<C>(s: System<C>, c: Control): (r: System<C>)
    ensures r.colors == s.colors && r.buttons.primaryVariant == s.buttons.primaryVariant
    ensures !IsShadowControl(c) ==>
              var (sec, key, v) := Target(c);
              Field(r, sec, key) == Some(v) && r.shape.shadow == s.shape.shadow &&
              forall sec', k :: (sec', k) != (sec, key) ==> Field(r, sec', k) == Field(s, sec', k)
    ensures IsShadowControl(c) ==>
              var (axis, n) := ShadowTarget(c);
              ShadowField(r.shape.shadow, axis) == n &&
              (forall a :: a != axis ==> ShadowField(r.shape.shadow, a) == ShadowField(s.shape.shadow, a)) &&
              forall sec, k :: Field(r, sec, k) == Field(s, sec, k)
  {
    match c
    case HeadingFont(f) => s.(typography := s.typography.(headingFont := f))
    case BodyFont(f) => s.(typography := s.typography.(bodyFont := f))
    case BaseSize(n) => s.(typography := s.typography.(baseSize := n))
    case ScaleRatio(x) => s.(typography := s.typography.(scaleRatio := x))
    case LineHeightHeading(x) => s.(typography := s.typography.(lineHeightHeading := x))
    case LineHeightBody(x) => s.(typography := s.typography.(lineHeightBody := x))
    case BaseUnit(n) => s.(spacing := s.spacing.(baseUnit := n))
    case MaxContainerWidth(n) => s.(spacing := s.spacing.(maxContainerWidth := n))
    case BorderRadius(n) => s.(shape := s.shape.(borderRadius := n))
    case LinkCorners(b) => s.(shape := s.shape.(linkCorners := b))
    case ShadowX(n) => s.(shape := s.shape.(shadow := s.shape.shadow.(x := n)))
    case ShadowY(n) => s.(shape := s.shape.(shadow := s.shape.shadow.(y := n)))
    case ShadowBlur(n) => s.(shape := s.shape.(shadow := s.shape.shadow.(blur := n)))
  }

  /** Each non-shadow control is the generic single-key write of the workbench, and each
      shadow slider is the shadow write: the panel and the workbench edit the record the
      same way. */
  lemma ControlIsFieldWrite<C>(s: System<C>, c: Control)
    ensures !IsShadowControl(c) ==>
              var (sec, key, v) := Target(c);
              Writable(s, sec, key, v) && ApplyControl(s, c) == UpdateSystem(s, sec, key, v)
    ensures IsShadowControl(c) ==>
              var (axis, n) := ShadowTarget(c);
              ApplyControl(s, c) == SetShadow(s, axis, n)
  {
    var a := ApplyControl(s, c);
    if !IsShadowControl(c) {
      var (sec, key, v) := Target(c);
      assert Writable(s, sec, key, v);
      var b := UpdateSystem(s, sec, key, v);
      forall sec', k ensures Field(a, sec', k) == Field(b, sec', k) {
        if (sec', k) != (sec, key) {
          assert Field(b, sec', k) == Field(s, sec', k);
        }
      }
      FieldsDetermineSystem(a, b);
    } else {
      var (axis, n) := ShadowTarget(c);
      var b := SetShadow(s, axis, n);
      assert a.shape.shadow == b.shape.shadow by {
        assert forall ax :: ShadowField(a.shape.shadow, ax) == ShadowField(b.shape.shadow, ax);
        assert ShadowField(a.shape.shadow, X) == ShadowField(b.shape.shadow, X);
        assert ShadowField(a.shape.shadow, Y) == ShadowField(b.shape.shadow, Y);
        assert ShadowField(a.shape.shadow, Blur) == ShadowField(b.shape.shadow, Blur);
      }
      FieldsDetermineSystem(a, b);
    }
  }

  // ---------------------------------------------------------------- interactive tabs

  datatype Tab = DefaultTab | HoverTab | FocusTab

  /** The interactive colour a tab edits; the default tab has no inputs. */
  function TabKey(t: Tab): (key: Option<InteractiveKey>)
    ensures key.None? <==> t == DefaultTab
  {
    match t
    case DefaultTab => None
    case HoverTab => Some(PrimaryHover)
    case FocusTab => Some(PrimaryFocus)
  }

  /** The tab strip of the interactive group, with its selected tab. */
  class InteractiveTabs {
    var active: Tab

    constructor()
      ensures active == DefaultTab
    {
      active := DefaultTab;
    }

    /** `setActiveTab(tab)`. */
    method Select(t: Tab)
      modifies this
      ensures active == t
    {
      active := t;
    }

    /** What an input of the open tab hands to `onChange`: nothing on the default tab; on
        the hover tab a record whose hover colour is the input and whose focus colour is
        unchanged, and the other way round on the focus tab. */
    function Input<C>(s: System<C>, v: string): (r: Option<System<C>>)
      reads this
      ensures r.None? <==> active == DefaultTab
      ensures r.Some? ==> r.value == s.(interactive := r.value.interactive)
      ensures active == HoverTab ==>
                r.Some? && r.value.interactive.primaryHover == v &&
                r.value.interactive.primaryFocus == s.interactive.primaryFocus
      ensures active == FocusTab ==>
                r.Some? && r.value.interactive.primaryFocus == v &&
                r.value.interactive.primaryHover == s.interactive.primaryHover
    {
      match TabKey(active)
      case None => None
      case Some(key) => Some(UpdateInteractive(s, key, v))
    }
  }
}
