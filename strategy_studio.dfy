/** The strategy wizard: a landing screen, a context form (name, business type, goal), a
    structure picker fed by the structure catalogue, and a sitemap review whose build button
    writes the chosen structure and the recommended sitemap into the layout. The wizard's
    state cells become the fields of a class; the catalogue lookup, whose definition is not
    part of this model, is a function the wizard is created with. */
module StrategyStudio {

  import opened Tokens
  import opened Wrappers
  import opened Sitemap
  import Strategy

  /** A structure option as the catalogue gives it; its preview blocks and descriptive
      text are only displayed. */
  datatype Structure = Structure(id: string, sections: seq<string>)

  /** What the wizard shows for a step. */
  datatype Screen =
    | Landing
    | ContextForm
    | StructurePicker(options: seq<Structure>)
    | SitemapReview(pages: seq<Page>)
    | Blank

  /** `handleFinalBuild`'s record: the context and the chosen structure written into the
      layout, a centred hero for the luxury structure and a split one otherwise, the
      recommended pages; the width, the spacing and every other section kept. */
  function BuildSystem<C>(s: System<C>, businessType: string, goal: string, vibe: string, st: Structure): (r: System<C>)
    ensures r == s.(layout := r.layout)
    ensures r.layout.businessType == businessType && r.layout.conversionGoal == goal && r.layout.brandVibe == vibe
    ensures r.layout.activeFormula == st.id && r.layout.sections == st.sections
    ensures r.layout.pages == RecommendedSitemap(businessType)
    ensures r.layout.heroStyle in {"center", "split"}
    ensures r.layout.heroStyle == "center" <==> st.id == "luxury"
    ensures r.layout.containerWidth == s.layout.containerWidth
    ensures r.layout.sectionSpacing == s.layout.sectionSpacing
  {
    s.(layout := s.layout.(
      businessType := businessType,
      conversionGoal := goal,
      brandVibe := vibe,
      activeFormula := st.id,
      sections := st.sections,
      heroStyle := if st.id == "luxury" then "center" else "split",
      pages := RecommendedSitemap(businessType)))
  }

  /** Building twice with the same choices is building once. */
  lemma BuildIdempotent<C>(s: System<C>, businessType: string, goal: string, vibe: string, st: Structure)
    ensures var r := BuildSystem(s, businessType, goal, vibe, st);
      BuildSystem(r, businessType, goal, vibe, st) == r
  {
  }

  /** The wizard and the workbench's strategy button attach the same pages for the same
      business type, whatever vibe, goal or structure each uses. */
  lemma BuildPagesMatchStrategy<C>(s: System<C>, businessType: string, goal: string, vibe: string,
                                   st: Structure, vibe2: string, goal2: string)
    ensures BuildSystem(s, businessType, goal, vibe, st).layout.pages ==
            Strategy.ApplyStrategy(s, businessType, vibe2, goal2).layout.pages
  {
  }

  /** The wizard's screen changes: landing to context, context to picker, picker to review,
      and the two back links (picker to context, review to picker). */
  predicate Transition(from: int, to: int)
  {
    (from == 0 && to == 1) || (from == 1 && to == 2) || (from == 2 && to == 3) ||
    (from == 2 && to == 1) || (from == 3 && to == 2)
  }

  /** Every screen change moves one step forward or back between existing screens, and
      none leads back to the landing screen. */
  lemma TransitionsAreSingleSteps(from: int, to: int)
    requires Transition(from, to)
    ensures 0 <= from <= 3 && 1 <= to <= 3
    ensures to == from + 1 || to == from - 1
  {
  }

  /** The wizard's state. */
  class Studio {
    var step: int
    var businessName: string
    var businessType: string
    var goal: string
    var vibe: string
    var selected: Option<Structure>
    /** The structure catalogue per business type. */
    const options: string -> seq<Structure>

    /** Steps stay within the four screens, the vibe is never changed from its initial
        value, and the review step is only reached with a structure chosen among those
        offered for the current business type. */
    predicate Valid()
      reads this
    {
      0 <= step <= 3 && vibe == "trustworthy" &&
      (step == 3 ==> selected.Some? && selected.value in options(businessType))
    }

    constructor(options: string -> seq<Structure>)
      ensures Valid()
      ensures step == 0 && businessName == "Untitled Project"
      ensures businessType == "service" && goal == "lead" && vibe == "trustworthy"
      ensures selected == None && this.options == options
    {
      step := 0;
      businessName := "Untitled Project";
      businessType := "service";
      goal := "lead";
      vibe := "trustworthy";
      selected := None;
      this.options := options;
    }

    /** The screen for the current step; any other step shows nothing. */
    function View(): (v: Screen)
      reads this
      ensures step == 0 <==> v == Landing
      ensures step == 1 <==> v == ContextForm
      ensures step == 2 <==> v.StructurePicker?
      ensures step == 3 <==> v.SitemapReview?
      ensures v.StructurePicker? ==> v.options == options(businessType)
      ensures v.SitemapReview? ==> v.pages == RecommendedSitemap(businessType)
    {
      if step == 0 then Landing
      else if step == 1 then ContextForm
      else if step == 2 then StructurePicker(options(businessType))
      else if step == 3 then SitemapReview(RecommendedSitemap(businessType))
      else Blank
    }

    /** The landing button. */
    method Start()
      requires Valid() && step == 0
      modifies this
      ensures Valid() && step == 1 && Transition(old(step), step)
      ensures businessName == old(businessName) && businessType == old(businessType)
      ensures goal == old(goal) && selected == old(selected)
    {
      step := 1;
    }

    /** The name field of the context form. */
    method SetName(name: string)
      requires Valid() && step == 1
      modifies this
      ensures Valid() && businessName == name
      ensures step == old(step) && businessType == old(businessType) && goal == old(goal) && selected == old(selected)
    {
      businessName := name;
    }

    /** A business-type button of the context form. */
    method SetBusinessType(t: string)
      requires Valid() && step == 1
      modifies this
      ensures Valid() && businessType == t
      ensures step == old(step) && businessName == old(businessName) && goal == old(goal) && selected == old(selected)
    {
      businessType := t;
    }

    /** A goal button of the context form. */
    method SetGoal(g: string)
      requires Valid() && step == 1
      modifies this
      ensures Valid() && goal == g
      ensures step == old(step) && businessName == old(businessName) && businessType == old(businessType)
      ensures selected == old(selected)
    {
      goal := g;
    }

    /** `handleContextSubmit`, the context form's button. */
    method SubmitContext()
      requires Valid() && step == 1
      modifies this
      ensures Valid() && step == 2 && Transition(old(step), step)
      ensures businessName == old(businessName) && businessType == old(businessType)
      ensures goal == old(goal) && selected == old(selected)
    {
      step := 2;
    }

    /** `handleStructureSelect(option)`, a card of the picker: remember the option and move
        on to the review. */
    method SelectStructure(option: Structure)
      requires Valid() && step == 2
      requires option in options(businessType)
      modifies this
      ensures Valid() && step == 3 && Transition(old(step), step) && selected == Some(option)
      ensures businessName == old(businessName) && businessType == old(businessType) && goal == old(goal)
    {
      selected := Some(option);
      step := 3;
    }

    /** The structure picker's back link. */
    method BackToContext()
      requires Valid() && step == 2
      modifies this
      ensures Valid() && step == 1 && Transition(old(step), step)
      ensures businessName == old(businessName) && businessType == old(businessType)
      ensures goal == old(goal) && selected == old(selected)
    {
      step := 1;
    }

    /** The review's "change strategy" link; the chosen structure is kept. */
    method ChangeStrategy()
      requires Valid() && step == 3
      modifies this
      ensures Valid() && step == 2 && Transition(old(step), step)
      ensures businessName == old(businessName) && businessType == old(businessType)
      ensures goal == old(goal) && selected == old(selected)
    {
      step := 2;
    }

    /** `handleFinalBuild`: nothing without a chosen structure; otherwise the built record,
        whose pages are the ones the review lists. On the review screen, where the build
        button is, a structure offered for the business type is always chosen. */
    method FinalBuild<C>(system: System<C>) returns (r: Option<System<C>>)
      requires Valid()
      ensures r.None? <==> selected.None?
      ensures r.Some? ==> r.value == BuildSystem(system, businessType, goal, vibe, selected.value)
      ensures r.Some? ==> r.value.layout.brandVibe == "trustworthy"
      ensures step == 3 ==> r.Some? && selected.value in options(businessType)
      ensures r.Some? && step == 3 ==> View() == SitemapReview(r.value.layout.pages)
    {
      if selected.None? {
        return None;
      }
      var st := selected.value;
      r := Some(BuildSystem(system, businessType, goal, vibe, st));
    }
  }

  /** The wizard's walk from the landing screen to a build: every step of the way is one of
      the wizard's transitions, and the record built at the end carries the chosen
      structure, the context entered and the default vibe. */
  method Walkthrough<C>(system: System<C>, options: string -> seq<Structure>, t: string, g: string, option: Structure)
    returns (r: Option<System<C>>)
    requires option in options(t)
    ensures r.Some?
    ensures r.value.layout.businessType == t && r.value.layout.conversionGoal == g
    ensures r.value.layout.brandVibe == "trustworthy"
    ensures r.value.layout.activeFormula == option.id && r.value.layout.sections == option.sections
    ensures r.value.layout.pages == RecommendedSitemap(t)
  {
    var studio := new Studio(options);
    studio.Start();
    studio.SetBusinessType(t);
    studio.SetGoal(g);
    studio.SubmitContext();
    studio.SelectStructure(option);
    r := studio.FinalBuild(system);
  }
}
