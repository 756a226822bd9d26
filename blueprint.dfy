/** `generateCursorPrompt`: the markdown project blueprint. The template is kept as its list
    of lines joined with newlines; the numbered section order and the selected-page list are
    each one interpolated slot, itself a newline-join of its entries (so an empty list leaves
    an empty line, as the template does). */
module Blueprint {

  import opened Tokens
  import opened Text
  import opened Sitemap

  /** The rounded H1 and H2 figures: the base size times the ratio to the fifth and to the
      fourth power. */
  function HeadingSizes(t: Typography): (sizes: (int, int))
    ensures sizes.0 as real - 0.5 <= t.baseSize as real * Pow(t.scaleRatio, 5) < sizes.0 as real + 0.5
    ensures sizes.1 as real - 0.5 <= t.baseSize as real * Pow(t.scaleRatio, 4) < sizes.1 as real + 0.5
  {
    (ScaleStep(t.baseSize, t.scaleRatio, 5), ScaleStep(t.baseSize, t.scaleRatio, 4))
  }

  /** With a non-negative base size and a ratio of at least one, H1 is never below H2. */
  lemma H1AtLeastH2(t: Typography)
    requires t.baseSize >= 0 && t.scaleRatio >= 1.0
    ensures HeadingSizes(t).0 >= HeadingSizes(t).1
  {
    ScaleStepMonotone(t.baseSize, t.scaleRatio, 4, 5);
  }

  /** The default type scale (16px, major third 1.25) gives H1 49px and H2 39px. */
  lemma DefaultScaleFigures(t: Typography)
    requires t.baseSize == 16 && t.scaleRatio == 1.25
    ensures HeadingSizes(t) == (49, 39)
  {
    var p4 := Pow(1.25, 4);
    var p5 := Pow(1.25, 5);
    assert Pow(1.25, 2) == 1.5625;
    assert Pow(1.25, 3) == 1.953125;
    assert p4 == 2.44140625;
    assert p5 == 3.0517578125;
    assert 16.0 * p5 + 0.5 == 49.328125;
    assert 16.0 * p4 + 0.5 == 39.5625;
  }

  // ---------------------------------------------------------------- selected pages

  /** `pages.filter(p => p.selected)`. */
  function Selected(pages: seq<Page>): (r: seq<Page>)
    ensures |r| <= |pages|
  {
    if |pages| == 0 then []
    else if pages[0].selected then [pages[0]] + Selected(pages[1..])
    else Selected(pages[1..])
  }

  /** The filter keeps exactly the selected pages: each kept page is a selected page of the
      list, and each selected page of the list is kept. */
  lemma {:induction false} SelectedMembers(pages: seq<Page>)
    ensures forall p :: p in Selected(pages) <==> p in pages && p.selected
  {
    if |pages| > 0 {
      SelectedMembers(pages[1..]);
      assert pages == [pages[0]] + pages[1..];
    }
  }

  /** Filtering keeps the original order: it distributes over concatenation. */
  lemma {:induction false} SelectedAppend(a: seq<Page>, b: seq<Page>)
    ensures Selected(a + b) == Selected(a) + Selected(b)
  {
    if |a| > 0 {
      assert (a + b)[1..] == a[1..] + b;
      SelectedAppend(a[1..], b);
    } else {
      assert a + b == b;
    }
  }

  /** A list whose pages are all selected passes through unchanged. */
  lemma {:induction false} SelectedAll(pages: seq<Page>)
    requires forall i :: 0 <= i < |pages| ==> pages[i].selected
    ensures Selected(pages) == pages
  {
    if |pages| > 0 {
      SelectedAll(pages[1..]);
    }
  }

  /** Of the default sitemaps, only the SaaS one loses a page to the filter. */
  lemma SelectedDefaultSitemap(businessType: string)
    requires businessType != "saas"
    ensures Selected(RecommendedSitemap(businessType)) == RecommendedSitemap(businessType)
  {
    SitemapWellFormed(businessType);
    SelectedAll(RecommendedSitemap(businessType));
  }

  /** A deselected page between two fully selected runs is the only page dropped. */
  lemma SelectedDropOne(front: seq<Page>, p: Page, back: seq<Page>)
    requires forall i :: 0 <= i < |front| ==> front[i].selected
    requires forall i :: 0 <= i < |back| ==> back[i].selected
    requires !p.selected
    ensures Selected(front + [p] + back) == front + back
  {
    var head := front + [p];
    SelectedAppend(head, back);
    SelectedAppend(front, [p]);
    assert Selected([p]) == [] by {
      assert [p][1..] == [];
    }
    SelectedAll(front);
    SelectedAll(back);
    assert Selected(head) == front;
  }

  /** A list with exactly one deselected page loses exactly that page. */
  lemma SelectedAllBut(pages: seq<Page>, k: nat)
    requires k < |pages| && !pages[k].selected
    requires forall i :: 0 <= i < |pages| && i != k ==> pages[i].selected
    ensures Selected(pages) == pages[..k] + pages[k + 1..]
  {
    var front := pages[..k];
    var back := pages[k + 1..];
    assert pages == front + [pages[k]] + back;
    assert forall i :: 0 <= i < |front| ==> front[i].selected by {
      forall i | 0 <= i < |front| ensures front[i].selected {
        assert front[i] == pages[i];
      }
    }
    assert forall i :: 0 <= i < |back| ==> back[i].selected by {
      forall i | 0 <= i < |back| ensures back[i].selected {
        assert back[i] == pages[k + 1 + i];
      }
    }
    SelectedDropOne(front, pages[k], back);
  }

  /** The SaaS list loses exactly its blog, the fifth page. */
  lemma SelectedSaasSitemap()
    ensures var pages := RecommendedSitemap("saas");
      Selected(pages) == pages[..4] + pages[5..]
  {
    var saas := RecommendedSitemap("saas");
    SaasBlogUnselected();
    assert saas[0].selected && saas[1].selected && saas[2].selected && saas[3].selected && saas[5].selected;
    SelectedAllBut(saas, 4);
  }

  function PageLine(p: Page): string
  {
    "- " + p.slug + " (" + p.name + "): " + p.reason
  }

  /** One `- slug (name): reason` line per selected page, in list order. */
  function SelectedPageLines(pages: seq<Page>): (lines: seq<string>)
    ensures |lines| == |Selected(pages)|
  {
    var sel := Selected(pages);
    seq(|sel|, i requires 0 <= i < |sel| => PageLine(sel[i]))
  }

  /** Line `i` describes the `i`-th selected page. */
  lemma SelectedPageLinesInOrder(pages: seq<Page>)
    ensures forall i :: 0 <= i < |SelectedPageLines(pages)| ==>
              SelectedPageLines(pages)[i] == PageLine(Selected(pages)[i])
  {
  }

  /** A deselected page contributes no line: toggling a page off removes exactly its line. */
  lemma DeselectedPageDropped(before: seq<Page>, p: Page, after: seq<Page>)
    requires !p.selected
    ensures SelectedPageLines(before + [p] + after) == SelectedPageLines(before + after)
  {
    SelectedAppend(before + [p], after);
    SelectedAppend(before, [p]);
    SelectedAppend(before, after);
    assert Selected([p]) == [] by {
      assert [p][1..] == [];
    }
    assert Selected(before + [p] + after) == Selected(before + after);
  }

  // ---------------------------------------------------------------- numbered sections

  /** `sections.map((s, i) => `${i + 1}. [${s.toUpperCase()}]`)`. */
  function NumberedSections(sections: seq<string>): (lines: seq<string>)
    ensures |lines| == |sections|
  {
    seq(|sections|, i requires 0 <= i < |sections| => IntToString(i + 1) + ". [" + Upper(sections[i]) + "]")
  }

  /** The characters of `line` before its first '.', or all of it. */
  function UpToDot(line: string): (r: string)
    ensures r <= line
  {
    if |line| == 0 || line[0] == '.' then [] else [line[0]] + UpToDot(line[1..])
  }

  lemma {:induction false} UpToDotDigits(digits: string, rest: string)
    requires AllDigits(digits) && |rest| >= 1 && rest[0] == '.'
    ensures UpToDot(digits + rest) == digits
  {
    if |digits| > 0 {
      assert (digits + rest)[1..] == digits[1..] + rest;
      UpToDotDigits(digits[1..], rest);
    } else {
      assert digits + rest == rest;
    }
  }

  /** The number in front of a section line. */
  function LineNumber(line: string): (n: int)
  {
    var head := UpToDot(line);
    if AllDigits(head) then ParseNat(head) else -1
  }

  /** The tag between the brackets of a section line, or everything after the number. */
  function LineTag(line: string): string
  {
    var head := UpToDot(line);
    if |head| + 3 <= |line| - 1 then line[|head| + 3..|line| - 1] else ""
  }

  /** Reading the section list back: the lines are numbered 1, 2, 3, … in order, and each
      carries its section's tag upper-cased. */
  lemma NumberedSectionsReadBack(sections: seq<string>)
    ensures var lines := NumberedSections(sections);
      forall i :: 0 <= i < |sections| ==>
        LineNumber(lines[i]) == i + 1 && LineTag(lines[i]) == Upper(sections[i])
  {
    var lines := NumberedSections(sections);
    forall i | 0 <= i < |sections|
      ensures LineNumber(lines[i]) == i + 1 && LineTag(lines[i]) == Upper(sections[i])
    {
      var num := NatToString(i + 1);
      var rest := ". [" + Upper(sections[i]) + "]";
      assert IntToString(i + 1) == num;
      assert lines[i] == num + rest;
      UpToDotDigits(num, rest);
      ParseNatToString(i + 1);
      assert lines[i][|num| + 3..|lines[i]| - 1] == Upper(sections[i]);
    }
  }

  // ---------------------------------------------------------------- the whole prompt

  /** The title line: upper-cased business type and brand vibe. */
  function TitleLine(l: Layout): (title: string)
    ensures |title| > 0 && title[0] == '#'
  {
    "# Project Blueprint: " + Upper(l.businessType) + " - " + Upper(l.brandVibe)
  }

  // The fixed lines of the template.
  const TokensHeading := "## 1. Design Tokens (The DNA)"
  const TokensNote := "Implement these tokens using Tailwind CSS custom configuration."
  const ColorsHeading := "### Colors"
  const TypographyHeading := "### Typography"
  const PrimitivesHeading := "### UI Primitives"
  const StrategyHeading := "## 2. Layout Strategy (The Wireframe)"
  const SectionOrderHeading := "### Homepage Section Order"
  const SitemapHeading := "## 3. Site Architecture (The Sitemap)"
  const SitemapNote := "Scaffold the following pages using React Router. Ensure a shared Layout component with Navbar and Footer."
  const StackHeading := "## 4. Technical Stack"
  const StackReact := "- React 18+"
  const StackTailwind := "- Tailwind CSS (Use the tokens above)"
  const StackIcons := "- Lucide React (Icons)"
  const ActionLine := "**Action:** Please initialize this project structure and generate the Tailwind config."

  function IntroLines(): seq<string>
  {
    [ "",
      TokensHeading,
      TokensNote,
      "" ]
  }

  function ColorLines(c: Palette): seq<string>
  {
    [ ColorsHeading,
      "- **Primary:** " + c.primary,
      "- **Secondary:** " + c.secondary,
      "- **Accent:** " + c.accent,
      "- **Light Theme:** Bg: " + c.light.canvas + ", Text: " + c.light.text,
      "- **Dark Theme:** Bg: " + c.dark.canvas + ", Text: " + c.dark.text,
      "" ]
  }

  function TypographyLines(t: Typography, fmt: real -> string): seq<string>
  {
    var h := HeadingSizes(t);
    [ TypographyHeading,
      "- **Heading Font:** " + t.headingFont,
      "- **Body Font:** " + t.bodyFont,
      "- **Base Size:** " + IntToString(t.baseSize) + "px (Scale Ratio: " + fmt(t.scaleRatio) + ")",
      "- **H1 Size:** ~" + IntToString(h.0) + "px | **H2 Size:** ~" + IntToString(h.1) + "px",
      "" ]
  }

  function PrimitiveLines(s: DesignSystem): seq<string>
  {
    [ PrimitivesHeading,
      "- **Radius:** " + IntToString(s.shape.borderRadius) + "px",
      "- **Buttons:** " + IntToString(s.buttons.borderWidth) + "px border, " + IntToString(s.buttons.radius) +
        "px radius, " + s.buttons.textTransform + " text.",
      "- **Shadows:** " + IntToString(s.shape.shadow.x) + "px " + IntToString(s.shape.shadow.y) + "px " +
        IntToString(s.shape.shadow.blur) + "px.",
      "" ]
  }

  function StrategyLines(l: Layout): seq<string>
  {
    [ StrategyHeading,
      "**Formula:** " + Upper(l.activeFormula),
      "**Hero Style:** " + Upper(l.heroStyle),
      "**Container Max:** " + IntToString(l.containerWidth) + "px",
      "",
      SectionOrderHeading,
      Join(NumberedSections(l.sections), "\n"),
      "" ]
  }

  function SitemapLines(l: Layout): seq<string>
  {
    [ SitemapHeading,
      SitemapNote,
      "",
      Join(SelectedPageLines(l.pages), "\n"),
      "" ]
  }

  function StackLines(a: Animation): seq<string>
  {
    [ StackHeading,
      StackReact,
      StackTailwind,
      StackIcons,
      "- Framer Motion (Animation Duration: " + IntToString(a.duration) + "ms)",
      "",
      ActionLine ]
  }

  /** The lines of the template after the title, in order. `fmt` is how the host prints a
      fractional number inside a template literal. */
  function BodyLines(s: DesignSystem, fmt: real -> string): (lines: seq<string>)
    ensures |lines| == 42 && lines[41] == ActionLine
  {
    IntroLines() + ColorLines(s.colors) + TypographyLines(s.typography, fmt) +
    PrimitiveLines(s) + StrategyLines(s.layout) + SitemapLines(s.layout) + StackLines(s.animation)
  }

  /** A title line followed by further lines, newline-joined. */
  function Titled(title: string, body: seq<string>): (text: string)
    ensures title <= text
    ensures |title| > 0 ==> |text| > 0 && text[0] == title[0]
    ensures |body| > 0 ==> EndsWith(text, body[|body| - 1])
  {
    var text := title + "\n" + Join(body, "\n");
    assert text[..|title|] == title;
    if |body| == 0 then text
    else
      JoinEndsWithLast(body, "\n");
      text
  }

  /** `generateCursorPrompt(system)`: the title line, then the body lines. */
  function GeneratePrompt(s: DesignSystem, fmt: real -> string): (text: string)
    ensures TitleLine(s.layout) <= text
    ensures |text| > 0 && text[0] == '#'
    ensures EndsWith(text, ActionLine)
  {
    Titled(TitleLine(s.layout), BodyLines(s, fmt))
  }

  /** The formula and hero-style lines show their values upper-cased: no lower-case letter
      is left, and every other character is kept in place. */
  lemma StrategyLinesUpperCased(l: Layout)
    ensures var lines := StrategyLines(l);
      lines[1] == "**Formula:** " + Upper(l.activeFormula) && NoLower(Upper(l.activeFormula)) &&
      lines[2] == "**Hero Style:** " + Upper(l.heroStyle) && NoLower(Upper(l.heroStyle))
  {
  }

  /** The title shows business type and vibe upper-cased, separated by " - ". */
  lemma TitleUpperCased(l: Layout)
    ensures var title := TitleLine(l);
      var prefix := "# Project Blueprint: ";
      title[..|prefix|] == prefix &&
      title[|prefix|..|prefix| + |l.businessType|] == Upper(l.businessType) &&
      title[|prefix| + |l.businessType|..|prefix| + |l.businessType| + 3] == " - " &&
      title[|prefix| + |l.businessType| + 3..] == Upper(l.brandVibe)
  {
  }
}
