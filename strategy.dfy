/** The layout strategy engine of the workbench: the priority-ordered choice of a page
    formula from the (business type, brand vibe, conversion goal) context, the write of that
    choice and of the recommended sitemap into the layout, the per-page selection toggle, and
    the recommendation title shown for the active formula. */
module Strategy {

  import opened Tokens
  import opened Wrappers
  import opened Edits
  import opened Sitemap

  /** What the if-chain decides. `spacing` is `None` where the chosen branch keeps the
      layout's current section spacing. */
  datatype Template = Template(
    formula: string,
    sections: seq<string>,
    hero: string,
    width: int,
    spacing: Option<string>)

  const Luxury := Template("luxury", ["hero", "gallery", "product", "social-proof", "cta"], "center", 1600, Some("spacious"))
  const Pas := Template("pas", ["hero", "problem", "solution", "social-proof", "cta"], "split", 1200, Some("comfortable"))
  const Showcase := Template("showcase", ["hero", "gallery", "solution", "cta"], "minimal", 1400, None)
  const StoryBrand := Template("storybrand", ["hero", "problem", "solution", "social-proof", "pricing", "cta"], "split", 1200, None)

  /** The four-way chain, first match wins: luxury, then problem-agitation-solution, then the
      portfolio showcase, then StoryBrand for everything else. */
  function Resolve(business: string, vibe: string, goal: string): (t: Template)
    ensures t.formula == "luxury" <==> business == "ecommerce" || vibe == "luxury"
    ensures t.formula == "pas" <==>
              !(business == "ecommerce" || vibe == "luxury") && (business == "service" || goal == "lead")
    ensures t.formula == "showcase" <==>
              !(business == "ecommerce" || vibe == "luxury") && !(business == "service" || goal == "lead") &&
              business == "portfolio"
    ensures t.formula in {"luxury", "pas", "showcase", "storybrand"}
    ensures |t.sections| >= 4 && t.sections[0] == "hero" && t.sections[|t.sections| - 1] == "cta"
    ensures 960 <= t.width <= 1600
    ensures t.spacing.None? <==> t.formula in {"showcase", "storybrand"}
    ensures t.formula == "luxury" ==> t == Luxury
    ensures t.formula == "pas" ==> t == Pas
    ensures t.formula == "showcase" ==> t == Showcase
    ensures t.formula == "storybrand" ==> t == StoryBrand
  {
    if business == "ecommerce" || vibe == "luxury" then Luxury
    else if business == "service" || goal == "lead" then Pas
    else if business == "portfolio" then Showcase
    else StoryBrand
  }

  /** `applyStrategy(business, vibe, goal)`: the new record. */
  function ApplyStrategy<C>(s: System<C>, business: string, vibe: string, goal: string): (r: System<C>)
    ensures r == s.(layout := r.layout)
    ensures r.layout.businessType == business && r.layout.brandVibe == vibe && r.layout.conversionGoal == goal
    ensures r.layout.pages == RecommendedSitemap(business)
    ensures |r.layout.sections| >= 4
    ensures r.layout.sections[0] == "hero" && r.layout.sections[|r.layout.sections| - 1] == "cta"
    ensures 960 <= r.layout.containerWidth <= 1600
    ensures r.layout.activeFormula in {"luxury", "pas", "showcase", "storybrand"}
    ensures r.layout.activeFormula in {"showcase", "storybrand"} ==>
              r.layout.sectionSpacing == s.layout.sectionSpacing
    ensures var t := Resolve(business, vibe, goal);
      r.layout.activeFormula == t.formula && r.layout.sections == t.sections &&
      r.layout.heroStyle == t.hero && r.layout.containerWidth == t.width &&
      r.layout.sectionSpacing == (if t.spacing.Some? then t.spacing.value else s.layout.sectionSpacing)
  {
    var t := Resolve(business, vibe, goal);
    s.(layout := s.layout.(
      businessType := business,
      brandVibe := vibe,
      conversionGoal := goal,
      activeFormula := t.formula,
      sections := t.sections,
      heroStyle := t.hero,
      containerWidth := t.width,
      sectionSpacing := if t.spacing.Some? then t.spacing.value else s.layout.sectionSpacing,
      pages := RecommendedSitemap(business)))
  }

  /** The luxury branch wins over every other: an e-commerce business, or a luxury vibe,
      gets the luxury template whatever the goal. */
  lemma LuxuryFirst<C>(s: System<C>, business: string, vibe: string, goal: string)
    requires business == "ecommerce" || vibe == "luxury"
    ensures var r := ApplyStrategy(s, business, vibe, goal);
      r.layout.activeFormula == "luxury" && r.layout.heroStyle == "center" &&
      r.layout.containerWidth == 1600 && r.layout.sectionSpacing == "spacious" &&
      r.layout.sections == ["hero", "gallery", "product", "social-proof", "cta"]
  {
  }

  /** The second branch: any business that is not e-commerce, without a luxury vibe, that
      is a service or whose goal is lead capture gets the problem-agitation-solution template. */
  lemma PasBranch<C>(s: System<C>, business: string, vibe: string, goal: string)
    requires !(business == "ecommerce" || vibe == "luxury") && (business == "service" || goal == "lead")
    ensures var r := ApplyStrategy(s, business, vibe, goal);
      r.layout.activeFormula == "pas" && r.layout.heroStyle == "split" &&
      r.layout.containerWidth == 1200 && r.layout.sectionSpacing == "comfortable" &&
      r.layout.sections == ["hero", "problem", "solution", "social-proof", "cta"]
  {
  }

  /** A lead goal outranks the portfolio branch: a portfolio collecting leads gets P.A.S. */
  lemma PortfolioLeadIsPas<C>(s: System<C>, vibe: string)
    requires vibe != "luxury"
    ensures var r := ApplyStrategy(s, "portfolio", vibe, "lead");
      r.layout.activeFormula == "pas" && r.layout.heroStyle == "split" &&
      r.layout.containerWidth == 1200 && r.layout.sectionSpacing == "comfortable"
  {
  }

  /** The two branches without a spacing of their own: a portfolio gets the showcase at
      1400 with a minimal hero, anything else StoryBrand at 1200 with a split hero. */
  lemma FallThroughBranches<C>(s: System<C>, business: string, vibe: string, goal: string)
    requires business != "ecommerce" && vibe != "luxury" && business != "service" && goal != "lead"
    ensures var r := ApplyStrategy(s, business, vibe, goal);
      r.layout.sectionSpacing == s.layout.sectionSpacing &&
      (business == "portfolio" ==>
         r.layout.activeFormula == "showcase" && r.layout.containerWidth == 1400 && r.layout.heroStyle == "minimal" &&
         r.layout.sections == ["hero", "gallery", "solution", "cta"]) &&
      (business != "portfolio" ==>
         r.layout.activeFormula == "storybrand" && r.layout.containerWidth == 1200 && r.layout.heroStyle == "split" &&
         r.layout.sections == ["hero", "problem", "solution", "social-proof", "pricing", "cta"])
  {
  }

  /** The recommended pages depend on the business type alone, never on vibe or goal. */
  lemma PagesIgnoreVibeAndGoal<C>(s: System<C>, business: string, vibe1: string, goal1: string, vibe2: string, goal2: string)
    ensures ApplyStrategy(s, business, vibe1, goal1).layout.pages == ApplyStrategy(s, business, vibe2, goal2).layout.pages
  {
  }

  /** Applying the same strategy twice gives what applying it once gives. */
  lemma ApplyStrategyIdempotent<C>(s: System<C>, business: string, vibe: string, goal: string)
    ensures var r := ApplyStrategy(s, business, vibe, goal);
      ApplyStrategy(r, business, vibe, goal) == r
  {
  }

  /** Only the layout's remaining section spacing survives from the previous layout: two
      records that differ elsewhere in their layout get the same strategy layout. */
  lemma ApplyStrategyForgetsLayout<C>(s1: System<C>, s2: System<C>, business: string, vibe: string, goal: string)
    requires s1 == s2.(layout := s1.layout)
    requires s1.layout.sectionSpacing == s2.layout.sectionSpacing
    ensures ApplyStrategy(s1, business, vibe, goal) == ApplyStrategy(s2, business, vibe, goal)
  {
  }

  // ---------------------------------------------------------------- page toggle

  function Flip(p: Page, id: string): Page
  {
    if p.id == id then p.(selected := !p.selected) else p
  }

  /** `pages.map(p => p.id === pageId ? {...p, selected: !p.selected} : p)`. */
  function TogglePages(pages: seq<Page>, id: string): (r: seq<Page>)
    ensures |r| == |pages|
    ensures forall i :: 0 <= i < |pages| ==>
              r[i] == pages[i].(selected := if pages[i].id == id then !pages[i].selected else pages[i].selected)
  {
    seq(|pages|, i requires 0 <= i < |pages| => Flip(pages[i], id))
  }

  /** Toggling is its own inverse. */
  lemma TogglePagesTwice(pages: seq<Page>, id: string)
    ensures TogglePages(TogglePages(pages, id), id) == pages
  {
    var once := TogglePages(pages, id);
    var twice := TogglePages(once, id);
    assert |twice| == |pages|;
    forall i | 0 <= i < |pages| ensures twice[i] == pages[i] {
      assert once[i].id == pages[i].id;
    }
  }

  /** Toggling a page id no page carries changes nothing. */
  lemma ToggleAbsentId(pages: seq<Page>, id: string)
    requires forall i :: 0 <= i < |pages| ==> pages[i].id != id
    ensures TogglePages(pages, id) == pages
  {
  }

  /** `togglePage(id)`: the toggled list written back through `updateSystem('layout', 'pages', …)`. */
  function TogglePage<C>(s: System<C>, id: string): (r: System<C>)
    ensures r == s.(layout := s.layout.(pages := r.layout.pages))
    ensures r.layout.pages == TogglePages(s.layout.pages, id)
    ensures |r.layout.pages| == |s.layout.pages|
    ensures forall i :: 0 <= i < |s.layout.pages| ==>
              r.layout.pages[i].id == s.layout.pages[i].id &&
              r.layout.pages[i].required == s.layout.pages[i].required &&
              (r.layout.pages[i].selected <==> (s.layout.pages[i].selected <==> s.layout.pages[i].id != id))
  {
    var pages := TogglePages(s.layout.pages, id);
    var r := UpdateSystem(s, LayoutSection, "pages", Pages(pages));
    assert r.layout == s.layout.(pages := pages) by {
      assert LayoutField(r.layout, "pages") == Some(Pages(pages));
      forall k | k != "pages" ensures LayoutField(r.layout, k) == LayoutField(s.layout, k) {
        assert Field(r, LayoutSection, k) == Field(s, LayoutSection, k);
      }
      LayoutDetermined(r.layout, s.layout.(pages := pages));
    }
    assert r == s.(layout := r.layout) by {
      forall sec, k | sec != LayoutSection ensures Field(r, sec, k) == Field(s, sec, k) {
      }
      FieldsDetermineSystem(r, s.(layout := r.layout));
    }
    r
  }

  /** Clicking the same checkbox twice restores the record. */
  lemma TogglePageTwice<C>(s: System<C>, id: string)
    ensures TogglePage(TogglePage(s, id), id) == s
  {
    TogglePagesTwice(s.layout.pages, id);
  }

  // ---------------------------------------------------------------- recommendation

  /** The title of the recommendation card for the active formula; any formula other than
      the first three gets the StoryBrand card. */
  function RecommendationTitle(formula: string): (title: string)
    ensures formula !in {"luxury", "pas", "showcase"} ==> title == "The StoryBrand Framework"
  {
    if formula == "luxury" then "The Vogue Protocol"
    else if formula == "pas" then "P.A.S. Formula"
    else if formula == "showcase" then "Visual Showcase"
    else "The StoryBrand Framework"
  }

  /** Different formulas that the strategy engine can set get different cards. */
  lemma RecommendationTitlesDistinct(f1: string, f2: string)
    requires f1 in {"luxury", "pas", "showcase", "storybrand"} && f2 in {"luxury", "pas", "showcase", "storybrand"}
    requires f1 != f2
    ensures RecommendationTitle(f1) != RecommendationTitle(f2)
  {
  }
}
