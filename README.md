# Design-system workbench: tokens, strategy and exports

This project models the logic core of a web-design workbench. The editor holds one design
record: colours, typography, spacing, shape, interactive colours, buttons, inputs, animation,
and a layout strategy with a page list. It offers the following.

- **Sitemap table.** A fixed page table per business type (`saas`, `ecommerce`, `service`,
  `portfolio`), with a Home-and-Contact fallback for any other value.
- **Strategy engine.** A priority-ordered choice of page formula (luxury, P.A.S., showcase,
  StoryBrand) from the business type, brand vibe and conversion goal. Its result is written
  into the layout together with the recommended pages. A per-page selection toggle sits
  beside it.
- **Strategy wizard.** Landing, context form, structure picker, sitemap review. Its build
  step writes the chosen structure and the recommended pages into the layout.
- **Token panels.** Single-key spread updates of the record. A path-walking colour write goes
  through a shallow copy of the record, so the write lands in the colours object the old
  record shares. The workbench adds a "sync with light" second write and an "auto-generate
  dark" button. The panels also hold the interactive-colour tabs and the 4.5:1 contrast badge.
- **Exporters.** Three text exports: a CSS `:root` block, a Tailwind `module.exports`
  configuration, and a markdown project blueprint. A code view picks one of them by tab.

## Modelling notes

- **Record type.** The record is `Tokens.System<C>`, generic in how the colours are held.
  - `DesignSystem = System<Palette>` holds them as a value. The exporters and the strategy
    functions use this form.
  - `System<ColorObject>` holds a reference to a heap object, as the editor does. Copying
    the record (`{...system}`) copies the reference.
- **Colour write.** The path walk is a `while` loop over that object (`ColorStore.WalkKeys`,
  `ColorStore.AssignPath`). It is specified against `ColorStore.Assign`, the same walk over
  a value snapshot of the object.
  - Reading from a string gives `undefined`.
  - Reading from `undefined` throws, and so does assigning onto a string or `undefined`.
  - A throw means nothing is written and `onChange` is never reached. The methods return
    `None` for that case.
- **Shared colours object.** The code's colour handlers write through `{...system}` into the
  colours object the old record shares. `ColorStore.UpdateColor` and
  `Workbench.UpdateColorSynced` therefore return the very record they were given, and its
  colours object has changed.
- **Opaque functions.** Four functions are not part of this model and become parameters:
  - the contrast ratio (`contrast`);
  - the dark-counterpart generator (`counterpart`);
  - the structure catalogue (`Studio.options`);
  - the host's printing of a fractional number inside a template literal (`fmt`).
  Integers are printed by `Text.IntToString`, which has a parser and a round-trip lemma.
- **Literal text.** Each export is kept as structured lines joined with newlines, following
  its template literal line by line.

## Model

| member | source | states |
|---|---|---|
| Sitemap.RecommendedSitemap | services/strategyUtils.ts:3-49 | total for every string; 2 to 6 pages; the first page is always Home (`/`, required, selected), fallback included |
| Sitemap.SitemapWellFormed | services/strategyUtils.ts:4-47 | in every list a required page is selected, ids and slugs are pairwise distinct, and Contact, where present, is the optional last page; the only page that starts deselected is the SaaS blog |
| Sitemap.FallbackSitemap | services/strategyUtils.ts:46-47 | a business type outside the four known ones gets exactly `[Home, Contact]` |
| Sitemap.SitemapLengths | services/strategyUtils.ts:8-47 | list lengths: saas, ecommerce and service 6, portfolio 4, anything else 2 |
| Sitemap.SaasBlogUnselected | services/strategyUtils.ts:14 | the SaaS blog (fifth page) is optional and starts deselected |
| Sitemap.ContactCloses | services/strategyUtils.ts:35-47 | for service, portfolio and the fallback, the last page is Contact |
| Strategy.Resolve | components/WorkbenchPanel.tsx:79-102 | the if-chain as iff conditions: luxury iff ecommerce or luxury vibe; P.A.S. iff not that and (service or lead goal); showcase iff neither and portfolio; sections run hero…cta; width in 960–1600; spacing kept exactly for showcase and StoryBrand; each formula comes with exactly its own template (sections, hero, width, spacing) |
| Strategy.ApplyStrategy | components/WorkbenchPanel.tsx:71-122 | only the layout changes; the context triple is stored; pages are the recommended sitemap; formula, sections, hero and width are those of the branch `Resolve` picks, spacing too unless the branch has none (showcase, StoryBrand), which keeps the previous spacing |
| Strategy.LuxuryFirst | components/WorkbenchPanel.tsx:79-84 | an ecommerce business or a luxury vibe gets the luxury template (centre hero, 1600, spacious, five sections) whatever the goal |
| Strategy.PasBranch | components/WorkbenchPanel.tsx:85-90 | not ecommerce, no luxury vibe, and a service business or a lead goal: P.A.S. with problem/solution sections, split hero, 1200, comfortable |
| Strategy.PortfolioLeadIsPas | components/WorkbenchPanel.tsx:85-90 | a portfolio with a lead goal and a non-luxury vibe gets P.A.S., split hero, 1200, comfortable |
| Strategy.FallThroughBranches | components/WorkbenchPanel.tsx:91-102 | past the first two branches: portfolio gets showcase at 1400 with a minimal hero and hero/gallery/solution/cta, others StoryBrand at 1200 split with the six StoryBrand sections; spacing kept in both |
| Strategy.PagesIgnoreVibeAndGoal | components/WorkbenchPanel.tsx:105 | the attached pages depend on the business type only |
| Strategy.ApplyStrategyIdempotent | components/WorkbenchPanel.tsx:71-122 | applying the same strategy twice equals applying it once |
| Strategy.ApplyStrategyForgetsLayout | components/WorkbenchPanel.tsx:107-121 | of the previous layout only the section spacing can influence the result |
| Strategy.TogglePages | components/WorkbenchPanel.tsx:125-127 | same length and order; each page keeps id and required; `selected` flips exactly on pages with the id |
| Strategy.TogglePagesTwice | components/WorkbenchPanel.tsx:125-127 | toggling twice restores the list |
| Strategy.ToggleAbsentId | components/WorkbenchPanel.tsx:125-127 | toggling an id no page carries changes nothing |
| Strategy.TogglePage | components/WorkbenchPanel.tsx:124-129 | only `layout.pages` changes, and it becomes `TogglePages` of the old list; length kept; ids and required flags kept; selection flipped iff the id matches |
| Strategy.TogglePageTwice | components/WorkbenchPanel.tsx:124-129 | two clicks on the same checkbox restore the record |
| Strategy.RecommendationTitle | components/WorkbenchPanel.tsx:284-289 | any formula other than luxury, pas, showcase gets "The StoryBrand Framework" |
| Strategy.RecommendationTitlesDistinct | components/WorkbenchPanel.tsx:284-289 | the four formulas the engine sets get four different cards |
| Edits.SetTypography | components/WorkbenchPanel.tsx:173-175 | the key reads back the new value; every other typography key reads as before |
| Edits.SetSpacing | components/WorkbenchPanel.tsx:173-175 | the key reads back the new value; every other spacing key reads as before |
| Edits.SetShape | components/WorkbenchPanel.tsx:173-175 | the key reads back the new value; other keys and the shadow unchanged |
| Edits.SetInteractive | components/WorkbenchPanel.tsx:173-175 | the key reads back the new value; the other interactive key unchanged |
| Edits.SetLayout | components/WorkbenchPanel.tsx:173-175 | the key reads back the new value; every other layout key reads as before |
| Edits.SetButtons | components/WorkbenchPanel.tsx:173-175 | the key reads back the new value; other keys and the variant unchanged |
| Edits.SetInputs | components/WorkbenchPanel.tsx:173-175 | the key reads back the new value; every other inputs key reads as before |
| Edits.SetAnimation | components/WorkbenchPanel.tsx:173-175 | the key reads back the new value; every other animation key reads as before |
| Edits.UpdateSystem | components/WorkbenchPanel.tsx:173-175 | exactly one key of one section changes: it reads back the value, every other (section, key) reads as before, colours, shadow and button variant untouched |
| Edits.FieldsDetermineSystem | components/WorkbenchPanel.tsx:173-175 | the keyed reading covers the whole record: records agreeing on every key, the colours, the shadow and the variant are equal (so the update's contract pins down the record) |
| Edits.SetShadow | components/ControlPanel.tsx:236-254 | one shadow component set, the other two and every keyed field unchanged |
| ControlPanel.UpdateInteractive | components/ControlPanel.tsx:25-30 | only `interactive` changes; the key holds the value; the other interactive colour is unchanged |
| ControlPanel.UpdateInteractiveIsFieldWrite | components/ControlPanel.tsx:25-30 | the interactive update equals the workbench's `updateSystem('interactive', key, v)` |
| ControlPanel.InteractiveUpdatesCommute | components/ControlPanel.tsx:25-30 | hover and focus updates commute |
| ControlPanel.BadgeFor | components/ControlPanel.tsx:35 | passing iff the ratio is at least 4.5 |
| ControlPanel.BadgeMonotone | components/ControlPanel.tsx:35 | a higher ratio never fails where a lower one passes |
| ControlPanel.ThemeBadge | components/ControlPanel.tsx:82 | the text badge passes iff contrast(text, canvas) ≥ 4.5 |
| ControlPanel.ApplyControl | components/ControlPanel.tsx:122-254 | a non-shadow control sets exactly its key (every other key, the shadow, the colours unchanged); a shadow slider sets exactly its axis and no key |
| ControlPanel.ControlIsFieldWrite | components/ControlPanel.tsx:122-254 | each non-shadow control is a writable `updateSystem` of its key; each shadow slider is `SetShadow` |
| ControlPanel.TabKey | components/ControlPanel.tsx:277-320 | the default tab, and only it, edits no colour |
| ControlPanel.InteractiveTabs.constructor | components/ControlPanel.tsx:13 | the strip opens on the default tab |
| ControlPanel.InteractiveTabs.Select | components/ControlPanel.tsx:266-274 | the clicked tab becomes active |
| ControlPanel.InteractiveTabs.Input | components/ControlPanel.tsx:277-320 | nothing on the default tab; hover tab sets hover and keeps focus; focus tab the reverse; nothing else changes |
| ColorStore.Assign | components/ControlPanel.tsx:15-23 | on success a one-key path writes that root key, a two-key path writes that field of a theme object |
| ColorStore.AssignSucceeds | components/ControlPanel.tsx:18-21 | one key always succeeds; two keys succeed iff the first names a theme object; three or more always throw |
| ColorStore.WalkDeep | components/ControlPanel.tsx:18-20 | after two keys the walk stands at a string, at `undefined` or past a throw |
| ColorStore.WalkThrows | components/ControlPanel.tsx:18-20 | once at `undefined` with a key left to read, the walk throws |
| ColorStore.LeafPath | components/ControlPanel.tsx:57-107 | every colour input passes a path of one or two keys |
| ColorStore.WithColor | components/WorkbenchPanel.tsx:206-215 | the palette with one leaf set and every other leaf as before |
| ColorStore.AssignLeaf | components/WorkbenchPanel.tsx:206-215 | each colour input's write succeeds and yields the palette with exactly that leaf replaced |
| ColorStore.WalkKeys | components/ControlPanel.tsx:18-20 | the loop throws iff the value walk throws; otherwise the walking variable stands where the value walk stands |
| ColorStore.SetRootKey | components/ControlPanel.tsx:21 | the object's snapshot gains exactly that key's string; shape kept |
| ColorStore.SetChildKey | components/ControlPanel.tsx:21 | the theme object's snapshot gains exactly that field; shape kept |
| ColorStore.AssignPath | components/ControlPanel.tsx:17-21 | the new snapshot is `Assign` of the old one; on a throw nothing changed |
| ColorStore.UpdateColor | components/ControlPanel.tsx:15-23 | the record handed on is the input record itself (shared colours), its colours are `Assign` of the old ones; on a throw nothing is handed on and nothing changed |
| Workbench.SyncedAssign | components/WorkbenchPanel.tsx:176-186 | a failing first write commits nothing and changes nothing |
| Workbench.NoSyncIsPlainWrite | components/WorkbenchPanel.tsx:181 | with sync off, or for paths other than light canvas and light text, the handler is the plain write |
| Workbench.SyncedLightWrites | components/WorkbenchPanel.tsx:181-184 | a synced light-canvas write sets light canvas and dark canvas = counterpart(v, "background"); light text likewise with "text"; nothing else changes |
| Workbench.UpdateColorSynced | components/WorkbenchPanel.tsx:176-186 | the colours after the handler, and whether it reached `onChange`, are exactly `SyncedAssign`; the record handed on is the input record |
| Workbench.AutoDark | components/WorkbenchPanel.tsx:221-226 | succeeds iff there is a light theme and a dark theme object |
| Workbench.AutoDarkPalette | components/WorkbenchPanel.tsx:221-226 | on a palette the dark pair becomes the counterparts of the light pair and nothing else changes |
| Workbench.AutoGenerateDark | components/WorkbenchPanel.tsx:221-226 | the colours afterwards are exactly `AutoDark` of the old ones; the record handed on is the input record |
| Workbench.CodeContent | components/WorkbenchPanel.tsx:63-67 | the CSS tab shows the CSS export, the Tailwind tab the config, any other tab the blueprint, each recognised by its opening |
| StrategyStudio.BuildSystem | components/StrategyStudio.tsx:29-48 | only the layout changes; context stored; formula and sections from the structure; pages recommended; hero centre iff the id is luxury, split otherwise; width and spacing kept |
| StrategyStudio.BuildIdempotent | components/StrategyStudio.tsx:34-46 | building twice with the same choices equals building once |
| StrategyStudio.BuildPagesMatchStrategy | components/StrategyStudio.tsx:31 | the wizard attaches the same pages as the workbench's strategy button for the same business type |
| StrategyStudio.Studio.constructor | components/StrategyStudio.tsx:12-19 | step 0, "Untitled Project", service, lead, trustworthy, no structure |
| StrategyStudio.Studio.View | components/StrategyStudio.tsx:51-293 | one screen per step 0–3, nothing otherwise; the picker lists the catalogue for the business type; the review lists the default sitemap |
| StrategyStudio.TransitionsAreSingleSteps | components/StrategyStudio.tsx:22-27 | every screen change the wizard offers moves one step forward or back and never returns to the landing screen |
| StrategyStudio.Studio.Start | components/StrategyStudio.tsx:51-65 | only on the landing screen (step 0); step 0 → 1, nothing else changes |
| StrategyStudio.Studio.SetName | components/StrategyStudio.tsx:76-95 | only on the context form (step 1); the name changes, nothing else |
| StrategyStudio.Studio.SetBusinessType | components/StrategyStudio.tsx:76-110 | only on the context form (step 1); the business type changes, nothing else |
| StrategyStudio.Studio.SetGoal | components/StrategyStudio.tsx:76-127 | only on the context form (step 1); the goal changes, nothing else |
| StrategyStudio.Studio.SubmitContext | components/StrategyStudio.tsx:22 | only on the context form (step 1); step 1 → 2, nothing else changes |
| StrategyStudio.Studio.SelectStructure | components/StrategyStudio.tsx:24-27 | only on the picker (step 2) and with an option the picker offers for the business type; the option is remembered and step 2 → 3 |
| StrategyStudio.Studio.BackToContext | components/StrategyStudio.tsx:155-165 | only on the picker (step 2); step 2 → 1, nothing else changes |
| StrategyStudio.Studio.ChangeStrategy | components/StrategyStudio.tsx:211-221 | only on the review (step 3); step 3 → 2, the chosen structure is kept |
| StrategyStudio.Studio.FinalBuild | components/StrategyStudio.tsx:29-48 | no record iff no structure is chosen; otherwise `BuildSystem` of the state, with vibe "trustworthy", whose pages are those the review shows; on the review screen a structure offered for the business type is always chosen, so a record is always built |
| StrategyStudio.Walkthrough | components/StrategyStudio.tsx:22-48 | landing → context → picker → review → build with an offered option always yields a record carrying the choices and the default vibe |
| Css.SpacingMultiplier | services/exportUtils.ts:18-25 | 4, 8 or 16; 4 iff compact, 16 iff spacious (8 otherwise) |
| Css.GenerateCss | services/exportUtils.ts:27-87 | the block opens with `:root {` and closes with `}` |
| Css.ColorsVerbatim | services/exportUtils.ts:28-45 | every colour token appears unchanged as the value of its custom property |
| Css.LengthsInPx | services/exportUtils.ts:50-82 | every pixel token has its property, printed with `px`, reading back as the token |
| Css.DeclarationIsLine | services/exportUtils.ts:27-87 | every declaration of the block is a whole line of the generated text, newline on both sides |
| Css.ColorLinesInCss | services/exportUtils.ts:28-45 | the generated text holds, as a line of its own, `--name: value;` with each colour token verbatim |
| Css.PxLinesInCss | services/exportUtils.ts:50-82 | the generated text holds, as a line of its own, `--name: <integer>px;` for each pixel token |
| Css.MotionAndSpacingUnits | services/exportUtils.ts:54-85 | the duration is printed in `ms` and reads back; letter spacing carries `em` |
| Css.SectionGap | services/exportUtils.ts:61 | the section gap is the base unit times 4, 16 or 8 by spacing name |
| Tailwind.GenerateTailwind | services/exportUtils.ts:90-151 | the config opens with `module.exports = {` and closes with `}` |
| Tailwind.PrimaryGroup | services/exportUtils.ts:95-99 | primary DEFAULT, hover, focus are the primary colour and the two interactive colours |
| Tailwind.CanvasPair | services/exportUtils.ts:104-107 | the canvas group pairs light canvas and dark canvas |
| Tailwind.TextPair | services/exportUtils.ts:108-111 | the text group pairs light text and dark text |
| Tailwind.ColorLeafLine | services/exportUtils.ts:94-116 | every leaf of a colour group is a whole line `key: value,` of the output, indented ten spaces |
| Tailwind.PrimaryLines | services/exportUtils.ts:96-98 | the output holds the lines `DEFAULT: '<primary>',`, `hover: '<hover>',` and `focus: '<focus>',` with the colours verbatim |
| Tailwind.CanvasLines | services/exportUtils.ts:105-106 | the output holds the canvas group's `light:` and `dark:` lines with the two canvas colours verbatim |
| Tailwind.TextLines | services/exportUtils.ts:109-110 | the output holds the text group's `light:` and `dark:` lines with the two text colours verbatim |
| Blueprint.HeadingSizes | services/exportUtils.ts:157-158 | H1 and H2 are within half a pixel of base·ratio⁵ and base·ratio⁴ |
| Blueprint.H1AtLeastH2 | services/exportUtils.ts:157-158 | with a ratio of at least one, H1 is never below H2 |
| Blueprint.DefaultScaleFigures | services/exportUtils.ts:157-158 | 16px at 1.25 gives H1 49 and H2 39 |
| Blueprint.Selected | services/exportUtils.ts:160 | the filter never lengthens the list |
| Blueprint.SelectedMembers | services/exportUtils.ts:160 | a page is kept iff it is in the list and selected |
| Blueprint.SelectedAppend | services/exportUtils.ts:160 | the filter keeps order: it distributes over concatenation |
| Blueprint.SelectedAll | services/exportUtils.ts:160 | a fully selected list passes unchanged |
| Blueprint.SelectedAllBut | services/exportUtils.ts:160 | a list with one deselected page loses exactly that page |
| Blueprint.SelectedDefaultSitemap | services/exportUtils.ts:160 | every default sitemap but SaaS passes the filter unchanged |
| Blueprint.SelectedSaasSitemap | services/exportUtils.ts:160 | the SaaS sitemap loses exactly its blog |
| Blueprint.SelectedPageLines | services/exportUtils.ts:160 | one line per selected page |
| Blueprint.SelectedPageLinesInOrder | services/exportUtils.ts:160 | line i is `- slug (name): reason` of the i-th selected page |
| Blueprint.DeselectedPageDropped | services/exportUtils.ts:160 | a deselected page contributes no line |
| Blueprint.NumberedSections | services/exportUtils.ts:191 | one line per section |
| Blueprint.NumberedSectionsReadBack | services/exportUtils.ts:191 | line i reads back as number i+1 and the section's tag upper-cased |
| Blueprint.TitleLine | services/exportUtils.ts:162 | the title is a markdown heading |
| Blueprint.TitleUpperCased | services/exportUtils.ts:162 | the title shows business type and vibe upper-cased, separated by " - " |
| Blueprint.StrategyLinesUpperCased | services/exportUtils.ts:186-187 | formula and hero style are shown upper-cased, with no lower-case letter left |
| Blueprint.BodyLines | services/exportUtils.ts:163-204 | the template has 42 lines after the title, the last the action line |
| Blueprint.GeneratePrompt | services/exportUtils.ts:153-205 | the prompt opens with the title line and ends with the action line |
| Text.IntToString | services/exportUtils.ts:50 | `${n}` of an integer: non-empty, with a minus sign iff negative |
| Text.ParseIntToString | services/exportUtils.ts:50 | printing an integer and reading it back gives the integer |
| Text.IntToStringInjective | services/exportUtils.ts:50 | different integers print differently |
| Text.MeasureRoundTrip | services/exportUtils.ts:50-85 | an integer printed with a unit suffix reads back as the integer |
| Text.Upper | services/exportUtils.ts:162 | same length, no lower-case letter left |
| Text.UpperPointwise | services/exportUtils.ts:162 | non-letters kept in place; each lower-case letter moved to its capital |
| Text.UpperFixesNoLower | services/exportUtils.ts:162 | a text with no lower-case letter is unchanged |
| Text.UpperIdempotent | services/exportUtils.ts:162 | upper-casing twice is upper-casing once |
| Text.JoinAppend | services/exportUtils.ts:160 | joining a concatenation puts the separator between the joined halves |
| Text.Round | services/exportUtils.ts:157 | `Math.round`: the nearest integer, halves up |
| Text.RoundMonotone | services/exportUtils.ts:157-158 | rounding is monotone |
| Text.ScaleStep | services/exportUtils.ts:157 | within half a pixel of base·ratioⁿ |
| Text.PowMonotone | services/exportUtils.ts:157-158 | a power of a ratio of at least one grows with the exponent |
| Text.ScaleStepMonotone | services/exportUtils.ts:157-158 | with base ≥ 0 and ratio ≥ 1, a higher level is never smaller |

## Left out

- The colour functions of services/utils.ts (contrast ratio, dark counterpart, contrast
  score) are not part of this model. They are function parameters, and no property of the
  colours they compute is claimed.
- The structure catalogue `getStructureOptions` is not part of this model. It is a function
  the wizard is created with. A structure's preview blocks, label and description are only
  displayed and are not modelled.
- JavaScript's number-to-string conversion of fractional numbers (scale ratio, line heights,
  letter spacing, hover scale) is the parameter `fmt`. `toFixed` in the badges and sliders is
  display only.
- Text.IntToString: matches JavaScript for integers below 10^21 in magnitude; exponent
  notation for larger numbers is not modelled.
- Text.Upper: upper-cases ASCII letters only. `toUpperCase` on other scripts (ß, accented
  letters) is not modelled.
- ControlPanel.ApplyControl: takes the value its input produced. The `Number(e.target.value)`
  parse of the text and range inputs, including `NaN` for an empty box, is not modelled.
- ControlPanel.ApplyControl: the Base (px) and Base Unit (px) number boxes have no `step`, so
  they pass fractional values such as 16.5 into `typography.baseSize` and `spacing.baseUnit`.
  The model keeps both fields integral (`BaseSize` and `BaseUnit` carry an `int`). Fractional
  values of them are therefore not modelled in the CSS and Tailwind exports (`16.5px`), nor in
  the blueprint's heading sizes and section gap.
- Css.LengthsInPx: for `--type-base` and `--unit`, the printed integer reflects only the
  integral base size and base unit the model holds (see the ControlPanel.ApplyControl line).
- Css.PxLinesInCss: likewise, the `<integer>px` line for `type-base` and `unit` does not cover
  a fractional value typed into their number boxes.
- ColorStore.Assign: a key found through the prototype chain is not modelled. Examples are
  `toString` on the colours object or on a colour string; such a key would let the JavaScript
  write succeed silently on a function object. Character and `length` reads on a string end in
  a throw in both the code and the model.
- ColorStore.AssignPath: assumes the colours object has the two-level shape it is created
  with (`Tree`): string colours at the root and two theme objects of strings.
- Workbench.AutoGenerateDark: requires a light theme that is absent or holds both colours as
  strings. A light theme without them would hand `undefined` to the generator, which is not
  part of this model.
- Workbench.AutoGenerateDark: the code reads the light text after the dark canvas write. The
  model reads it first. The light and dark themes are distinct objects in the modelled shape,
  so the value read is the same.
- Workbench.CodeContent: states only which export each tab shows, by each export's opening
  line. The exports' full contents are stated by the Css, Tailwind and Blueprint lemmas.
- The `codeTab` and `syncDarkMode` state cells are parameters of the functions that read them.
- StrategyStudio.Studio: the business name is stored but not used by the build, as in the
  code. The vibe is never changed because the code never calls its setter; `Valid` records
  this.
- File download and import, clipboard copy, timers, the font loader, the generative-model
  call and all rendering are I/O and not modelled.
