/** `generateCSS`: the token record as a `:root { … }` block of custom properties. The block
    is kept as a list of structured lines (section comments, declarations, blank lines) that
    render one line each and are joined with newlines; every value is a token copied verbatim
    or printed with its unit. */
module Css {

  import opened Tokens
  import opened Wrappers
  import opened Text

  /** The section gap per spacing name: compact 4, comfortable 8, spacious 16, anything else 8. */
  function SpacingMultiplier(spacing: string): (m: int)
    ensures m in {4, 8, 16}
    ensures m == 4 <==> spacing == "compact"
    ensures m == 16 <==> spacing == "spacious"
  {
    match spacing
    case "compact" => 4
    case "comfortable" => 8
    case "spacious" => 16
    case _ => 8
  }

  /** A blank line keeps the whitespace it has in the template (one of them is two spaces). */
  datatype CssLine =
    | Comment(title: string)
    | Decl(name: string, value: string)
    | Blank(pad: string)

  function RenderLine(l: CssLine): string
  {
    match l
    case Comment(title) => "  /* " + title + " */"
    case Decl(name, value) => "  --" + name + ": " + value + ";"
    case Blank(pad) => pad
  }

  function Px(n: int): string { IntToString(n) + "px" }

  function BrandDecls(c: Palette): seq<CssLine>
  {
    [ Decl("color-primary", c.primary),
      Decl("color-secondary", c.secondary),
      Decl("color-accent", c.accent),
      Decl("color-success", c.success),
      Decl("color-error", c.error) ]
  }

  function ThemeDecls(canvasName: string, textName: string, theme: ThemePair): seq<CssLine>
  {
    [ Decl(canvasName, theme.canvas),
      Decl(textName, theme.text) ]
  }

  function InteractiveDecls(i: Interactive): seq<CssLine>
  {
    [ Decl("primary-hover", i.primaryHover),
      Decl("primary-focus", i.primaryFocus) ]
  }

  function TypographyDecls(t: Typography, fmt: real -> string): seq<CssLine>
  {
    [ Decl("font-heading", "\"" + t.headingFont + "\", sans-serif"),
      Decl("font-body", "\"" + t.bodyFont + "\", sans-serif"),
      Decl("type-base", Px(t.baseSize)),
      Decl("type-scale", fmt(t.scaleRatio)),
      Decl("lh-heading", fmt(t.lineHeightHeading)),
      Decl("lh-body", fmt(t.lineHeightBody)),
      Decl("type-spacing", fmt(t.letterSpacing) + "em"),
      Decl("type-transform", t.textTransform),
      Decl("type-decoration", t.textDecoration) ]
  }

  function LayoutDecls(s: DesignSystem): seq<CssLine>
  {
    [ Decl("unit", Px(s.spacing.baseUnit)),
      Decl("max-width", Px(s.layout.containerWidth)),
      Decl("section-gap", Px(s.spacing.baseUnit * SpacingMultiplier(s.layout.sectionSpacing))) ]
  }

  function ShapeDecls(sh: Shape): seq<CssLine>
  {
    [ Decl("radius", Px(sh.borderRadius)),
      Decl("shadow-x", Px(sh.shadow.x)),
      Decl("shadow-y", Px(sh.shadow.y)),
      Decl("shadow-blur", Px(sh.shadow.blur)) ]
  }

  function ButtonDecls(b: Buttons, fmt: real -> string): seq<CssLine>
  {
    [ Decl("btn-radius", Px(b.radius)),
      Decl("btn-border", Px(b.borderWidth)),
      Decl("btn-transform", b.textTransform),
      Decl("btn-weight", b.fontWeight),
      Decl("btn-border-style", b.borderStyle),
      Decl("btn-hover-scale", fmt(b.hoverScale)) ]
  }

  function InputDecls(i: Inputs): seq<CssLine>
  {
    [ Decl("input-radius", Px(i.radius)),
      Decl("input-border", Px(i.borderWidth)),
      Decl("input-bg", i.baseBg),
      Decl("input-border-color", i.borderColor),
      Decl("ring-width", Px(i.focusRingWidth)) ]
  }

  function MotionDecls(a: Animation): seq<CssLine>
  {
    [ Decl("motion-duration", IntToString(a.duration) + "ms"),
      Decl("motion-ease", a.easing) ]
  }

  /** A commented group of declarations. */
  function Block(title: string, decls: seq<CssLine>): seq<CssLine>
  {
    [Comment(title)] + decls
  }

  /** The body of the block, in template order. `fmt` is how the host prints a fractional
      number inside a template literal. The blank line after the shape group holds two
      spaces in the template; the others are empty. */
  function CssDeclarations(s: DesignSystem, fmt: real -> string): seq<CssLine>
  {
    Block("Brand Palette", BrandDecls(s.colors)) + [Blank("")] +
    Block("Light Theme", ThemeDecls("light-canvas", "light-text", s.colors.light)) + [Blank("")] +
    Block("Dark Theme", ThemeDecls("dark-canvas", "dark-text", s.colors.dark)) + [Blank("")] +
    Block("Interactive", InteractiveDecls(s.interactive)) + [Blank("")] +
    Block("Typography", TypographyDecls(s.typography, fmt)) + [Blank("")] +
    Block("Layout", LayoutDecls(s)) + [Blank("")] +
    Block("Shape", ShapeDecls(s.shape)) + [Blank("  ")] +
    Block("Button Architecture", ButtonDecls(s.buttons, fmt)) + [Blank("")] +
    Block("Input Architecture", InputDecls(s.inputs)) + [Blank("")] +
    Block("Motion & Animation", MotionDecls(s.animation))
  }

  function RenderLines(lines: seq<CssLine>): (r: seq<string>)
    ensures |r| == |lines|
    ensures forall i :: 0 <= i < |lines| ==> r[i] == RenderLine(lines[i])
  {
    seq(|lines|, i requires 0 <= i < |lines| => RenderLine(lines[i]))
  }

  /** `generateCSS(system)`. */
  function GenerateCss(s: DesignSystem, fmt: real -> string): (css: string)
    ensures ":root {" <= css && EndsWith(css, "}")
    ensures |css| > 0 && css[0] == ':'
  {
    var lines := [":root {"] + RenderLines(CssDeclarations(s, fmt)) + ["}"];
    JoinStartsWithFirst(lines, "\n");
    JoinEndsWithLast(lines, "\n");
    PrefixHead(":root {", Join(lines, "\n"));
    Join(lines, "\n")
  }

  /** The colour token behind each colour custom property, or `None` for any other name. */
  function ColorToken(s: DesignSystem, name: string): Option<string>
  {
    match name
    case "color-primary" => Some(s.colors.primary)
    case "color-secondary" => Some(s.colors.secondary)
    case "color-accent" => Some(s.colors.accent)
    case "color-success" => Some(s.colors.success)
    case "color-error" => Some(s.colors.error)
    case "light-canvas" => Some(s.colors.light.canvas)
    case "light-text" => Some(s.colors.light.text)
    case "dark-canvas" => Some(s.colors.dark.canvas)
    case "dark-text" => Some(s.colors.dark.text)
    case "primary-hover" => Some(s.interactive.primaryHover)
    case "primary-focus" => Some(s.interactive.primaryFocus)
    case _ => None
  }

  /** The integer token behind each pixel-valued custom property, or `None` otherwise. The
      section gap is the base unit times the spacing multiplier. */
  function PxToken(s: DesignSystem, name: string): Option<int>
  {
    match name
    case "type-base" => Some(s.typography.baseSize)
    case "unit" => Some(s.spacing.baseUnit)
    case "max-width" => Some(s.layout.containerWidth)
    case "section-gap" => Some(s.spacing.baseUnit * SpacingMultiplier(s.layout.sectionSpacing))
    case "radius" => Some(s.shape.borderRadius)
    case "shadow-x" => Some(s.shape.shadow.x)
    case "shadow-y" => Some(s.shape.shadow.y)
    case "shadow-blur" => Some(s.shape.shadow.blur)
    case "btn-radius" => Some(s.buttons.radius)
    case "btn-border" => Some(s.buttons.borderWidth)
    case "input-radius" => Some(s.inputs.radius)
    case "input-border" => Some(s.inputs.borderWidth)
    case "ring-width" => Some(s.inputs.focusRingWidth)
    case _ => None
  }

  /** Every colour token appears, unchanged, as the value of its custom property. */
  lemma ColorsVerbatim(s: DesignSystem, fmt: real -> string)
    ensures forall name :: ColorToken(s, name).Some? ==>
              Decl(name, ColorToken(s, name).value) in CssDeclarations(s, fmt)
  {
    var d := CssDeclarations(s, fmt);
    forall name | ColorToken(s, name).Some? ensures Decl(name, ColorToken(s, name).value) in d {
      var l := Decl(name, ColorToken(s, name).value);
      if name in {"color-primary", "color-secondary", "color-accent", "color-success", "color-error"} {
        assert l in BrandDecls(s.colors);
      } else if name in {"light-canvas", "light-text"} {
        assert l in ThemeDecls("light-canvas", "light-text", s.colors.light);
      } else if name in {"dark-canvas", "dark-text"} {
        assert l in ThemeDecls("dark-canvas", "dark-text", s.colors.dark);
      } else {
        assert l in InteractiveDecls(s.interactive);
      }
    }
  }

  /** Inside a `:root` block, each rendered declaration is a line of its own. */
  lemma RenderedLineInBlock(d: seq<CssLine>, l: CssLine)
    requires l in d
    ensures IsInnerLine(RenderLine(l), Join([":root {"] + RenderLines(d) + ["}"], "\n"), "\n")
  {
    var i :| 0 <= i < |d| && d[i] == l;
    var lines := [":root {"] + RenderLines(d) + ["}"];
    assert lines[i + 1] == RenderLine(l);
    JoinInnerLine(lines, "\n", i + 1);
  }

  /** Each declaration of the block is a line of its own in the generated text. */
  lemma DeclarationIsLine(s: DesignSystem, fmt: real -> string, l: CssLine)
    requires l in CssDeclarations(s, fmt)
    ensures IsInnerLine(RenderLine(l), GenerateCss(s, fmt), "\n")
  {
    RenderedLineInBlock(CssDeclarations(s, fmt), l);
  }

  /** In the generated text, every colour token stands verbatim on its own custom-property line. */
  lemma ColorLinesInCss(s: DesignSystem, fmt: real -> string, name: string)
    requires ColorToken(s, name).Some?
    ensures IsInnerLine("  --" + name + ": " + ColorToken(s, name).value + ";", GenerateCss(s, fmt), "\n")
  {
    ColorsVerbatim(s, fmt);
    DeclarationIsLine(s, fmt, Decl(name, ColorToken(s, name).value));
  }

  /** In the generated text, every pixel-valued token stands on its own line as an integer
      followed by `px`. */
  lemma PxLinesInCss(s: DesignSystem, fmt: real -> string, name: string)
    requires PxToken(s, name).Some?
    ensures IsInnerLine("  --" + name + ": " + Px(PxToken(s, name).value) + ";", GenerateCss(s, fmt), "\n")
  {
    PxDeclInGroup(s, fmt, name);
    PxGroupsIncluded(s, fmt, Decl(name, Px(PxToken(s, name).value)));
    DeclarationIsLine(s, fmt, Decl(name, Px(PxToken(s, name).value)));
  }

  /** The declaration groups holding pixel values all end up in the block. */
  lemma PxGroupsIncluded(s: DesignSystem, fmt: real -> string, l: CssLine)
    requires l in TypographyDecls(s.typography, fmt) || l in LayoutDecls(s) || l in ShapeDecls(s.shape) ||
             l in ButtonDecls(s.buttons, fmt) || l in InputDecls(s.inputs)
    ensures l in CssDeclarations(s, fmt)
  {
  }

  /** Each pixel-valued token is declared in one of the groups that hold pixel values. */
  lemma PxDeclInGroup(s: DesignSystem, fmt: real -> string, name: string)
    requires PxToken(s, name).Some?
    ensures var l := Decl(name, Px(PxToken(s, name).value));
      l in TypographyDecls(s.typography, fmt) || l in LayoutDecls(s) || l in ShapeDecls(s.shape) ||
      l in ButtonDecls(s.buttons, fmt) || l in InputDecls(s.inputs)
  {
    var l := Decl(name, Px(PxToken(s, name).value));
    if name == "type-base" {
      assert l in TypographyDecls(s.typography, fmt);
    } else if name in {"unit", "max-width", "section-gap"} {
      assert l in LayoutDecls(s);
    } else if name in {"radius", "shadow-x", "shadow-y", "shadow-blur"} {
      assert l in ShapeDecls(s.shape);
    } else if name in {"btn-radius", "btn-border"} {
      assert l in ButtonDecls(s.buttons, fmt);
    } else {
      assert l in InputDecls(s.inputs);
    }
  }

  /** Every pixel-valued token has its custom property, printed with a `px` suffix that
      reads back as the token. */
  lemma LengthsInPx(s: DesignSystem, fmt: real -> string)
    ensures forall name :: PxToken(s, name).Some? ==>
              Decl(name, Px(PxToken(s, name).value)) in CssDeclarations(s, fmt) &&
              ParseMeasure(Px(PxToken(s, name).value), "px") == PxToken(s, name)
  {
    forall name | PxToken(s, name).Some?
      ensures Decl(name, Px(PxToken(s, name).value)) in CssDeclarations(s, fmt)
      ensures ParseMeasure(Px(PxToken(s, name).value), "px") == PxToken(s, name)
    {
      MeasureRoundTrip(PxToken(s, name).value, "px");
      PxDeclInGroup(s, fmt, name);
      PxGroupsIncluded(s, fmt, Decl(name, Px(PxToken(s, name).value)));
    }
  }

  /** The motion duration is printed in milliseconds, reading back as the duration, and the
      letter spacing in em. */
  lemma MotionAndSpacingUnits(s: DesignSystem, fmt: real -> string)
    ensures Decl("motion-duration", IntToString(s.animation.duration) + "ms") in CssDeclarations(s, fmt)
    ensures ParseMeasure(IntToString(s.animation.duration) + "ms", "ms") == Some(s.animation.duration)
    ensures Decl("type-spacing", fmt(s.typography.letterSpacing) + "em") in CssDeclarations(s, fmt)
  {
    MeasureRoundTrip(s.animation.duration, "ms");
    assert Decl("motion-duration", IntToString(s.animation.duration) + "ms") in MotionDecls(s.animation);
    assert Decl("type-spacing", fmt(s.typography.letterSpacing) + "em") in TypographyDecls(s.typography, fmt);
  }

  /** The section gap is the base unit scaled by the layout's spacing: four, eight or
      sixteen times, eight for any name outside the table. */
  lemma SectionGap(s: DesignSystem, fmt: real -> string)
    ensures var gap := s.spacing.baseUnit * (match s.layout.sectionSpacing
                                             case "compact" => 4
                                             case "spacious" => 16
                                             case _ => 8);
      Decl("section-gap", Px(gap)) in CssDeclarations(s, fmt)
  {
    LengthsInPx(s, fmt);
    assert PxToken(s, "section-gap").Some?;
  }
}
