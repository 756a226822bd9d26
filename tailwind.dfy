/** `generateTailwindConfig`: the token record as a `module.exports` object literal. The
    literal is kept as a tree of keyed entries, a leaf holding the literal text of its value
    and a group holding its entries, rendered two spaces per level. In the template every
    leaf line ends with a comma, and a group's closing brace has one unless the group is the
    last entry of its parent. */
module Tailwind {

  import opened Tokens
  import opened Wrappers
  import opened Text

  datatype Cfg =
    | Leaf(key: string, raw: string)
    | Group(key: string, entries: seq<Cfg>)

  function Quote(v: string): string { "'" + v + "'" }

  function Indent(depth: nat): (r: string)
    ensures |r| == 2 * depth
    ensures forall i :: 0 <= i < |r| ==> r[i] == ' '
  {
    if depth == 0 then "" else "  " + Indent(depth - 1)
  }

  /** The lines of one entry at `depth`; `last` says whether it closes its parent. */
  function RenderEntry(c: Cfg, depth: nat, last: bool): (r: seq<string>)
    ensures |r| >= 1
    decreases c, 1
  {
    match c
    case Leaf(key, raw) => [Indent(depth) + key + ": " + raw + ","]
    case Group(key, entries) =>
      [Indent(depth) + key + ": {"] + RenderEntries(entries, depth + 1) +
      [Indent(depth) + (if last then "}" else "},")]
  }

  function RenderEntries(entries: seq<Cfg>, depth: nat): seq<string>
    decreases entries, 0
  {
    if |entries| == 0 then []
    else RenderEntry(entries[0], depth, |entries| == 1) + RenderEntries(entries[1..], depth)
  }

  /** The configuration tree of a token record; `fmt` is how the host prints a fractional
      number inside a template literal. */
  function Config(s: DesignSystem, fmt: real -> string): seq<Cfg>
  {
    var c := s.colors;
    [ Group("theme", [
        Group("extend", [
          Group("colors", [
            Group("primary", [
              Leaf("DEFAULT", Quote(c.primary)),
              Leaf("hover", Quote(s.interactive.primaryHover)),
              Leaf("focus", Quote(s.interactive.primaryFocus)) ]),
            Leaf("secondary", Quote(c.secondary)),
            Leaf("accent", Quote(c.accent)),
            Leaf("success", Quote(c.success)),
            Leaf("error", Quote(c.error)),
            Group("canvas", [
              Leaf("light", Quote(c.light.canvas)),
              Leaf("dark", Quote(c.dark.canvas)) ]),
            Group("text", [
              Leaf("light", Quote(c.light.text)),
              Leaf("dark", Quote(c.dark.text)) ]),
            Group("input", [
              Leaf("bg", Quote(s.inputs.baseBg)),
              Leaf("border", Quote(s.inputs.borderColor)) ]) ]),
          Group("fontFamily", [
            Leaf("heading", "[" + Quote("\"" + s.typography.headingFont + "\"") + ", 'sans-serif']"),
            Leaf("body", "[" + Quote("\"" + s.typography.bodyFont + "\"") + ", 'sans-serif']") ]),
          Group("borderRadius", [
            Leaf("DEFAULT", Quote(IntToString(s.shape.borderRadius) + "px")),
            Leaf("btn", Quote(IntToString(s.buttons.radius) + "px")),
            Leaf("input", Quote(IntToString(s.inputs.radius) + "px")) ]),
          Group("borderWidth", [
            Leaf("btn", Quote(IntToString(s.buttons.borderWidth) + "px")),
            Leaf("input", Quote(IntToString(s.inputs.borderWidth) + "px")) ]),
          Group("letterSpacing", [
            Leaf("base", Quote(fmt(s.typography.letterSpacing) + "em")) ]),
          Group("scale", [
            Leaf("hover", Quote(fmt(s.buttons.hoverScale))) ]),
          Group("ringWidth", [
            Leaf("DEFAULT", Quote(IntToString(s.inputs.focusRingWidth) + "px")) ]),
          Group("transitionDuration", [
            Leaf("DEFAULT", Quote(IntToString(s.animation.duration) + "ms")) ]),
          Group("transitionTimingFunction", [
            Leaf("DEFAULT", Quote(s.animation.easing)) ]),
          Group("spacing", [
            Leaf("unit", Quote(IntToString(s.spacing.baseUnit) + "px")) ]) ]) ]) ]
  }

  /** `generateTailwindConfig(system)`. */
  function GenerateTailwind(s: DesignSystem, fmt: real -> string): (text: string)
    ensures "module.exports = {" <= text && EndsWith(text, "}")
    ensures |text| > 0 && text[0] == 'm'
  {
    var lines := ["module.exports = {"] + RenderEntries(Config(s, fmt), 1) + ["}"];
    JoinStartsWithFirst(lines, "\n");
    JoinEndsWithLast(lines, "\n");
    PrefixHead("module.exports = {", Join(lines, "\n"));
    Join(lines, "\n")
  }

  /** Every line an entry renders is a line of its list's rendering. */
  lemma {:induction false} EntryLinesInEntries(entries: seq<Cfg>, depth: nat, i: nat, line: string)
    requires i < |entries|
    requires line in RenderEntry(entries[i], depth, i == |entries| - 1)
    ensures line in RenderEntries(entries, depth)
    decreases i
  {
    if i > 0 {
      assert entries[1..][i - 1] == entries[i];
      EntryLinesInEntries(entries[1..], depth, i - 1, line);
    }
  }

  /** A leaf of a list renders as its own line `key: raw,` at the list's depth. */
  lemma LeafLine(entries: seq<Cfg>, depth: nat, i: nat)
    requires i < |entries| && entries[i].Leaf?
    ensures Indent(depth) + entries[i].key + ": " + entries[i].raw + "," in RenderEntries(entries, depth)
  {
    EntryLinesInEntries(entries, depth, i, Indent(depth) + entries[i].key + ": " + entries[i].raw + ",");
  }

  /** The lines of a group's entries are lines of the list holding the group. */
  lemma GroupLine(entries: seq<Cfg>, depth: nat, i: nat, line: string)
    requires i < |entries| && entries[i].Group?
    requires line in RenderEntries(entries[i].entries, depth + 1)
    ensures line in RenderEntries(entries, depth)
  {
    EntryLinesInEntries(entries, depth, i, line);
  }

  /** The colour groups, reached through `theme`, `extend` and `colors`. */
  function ColorGroups(s: DesignSystem, fmt: real -> string): seq<Cfg>
  {
    Config(s, fmt)[0].entries[0].entries[0].entries
  }

  /** A leaf of a colour group stands on its own line of the output, five levels deep. */
  lemma ColorLeafLine(s: DesignSystem, fmt: real -> string, g: nat, k: nat)
    requires g < |ColorGroups(s, fmt)| && ColorGroups(s, fmt)[g].Group?
    requires k < |ColorGroups(s, fmt)[g].entries| && ColorGroups(s, fmt)[g].entries[k].Leaf?
    ensures var leaf := ColorGroups(s, fmt)[g].entries[k];
      IsInnerLine(Indent(5) + leaf.key + ": " + leaf.raw + ",", GenerateTailwind(s, fmt), "\n")
  {
    var top := Config(s, fmt);
    var groups := ColorGroups(s, fmt);
    var leaf := groups[g].entries[k];
    var line := Indent(5) + leaf.key + ": " + leaf.raw + ",";
    LeafLine(groups[g].entries, 5, k);
    GroupLine(groups, 4, g, line);
    GroupLine(top[0].entries[0].entries, 3, 0, line);
    GroupLine(top[0].entries, 2, 0, line);
    GroupLine(top, 1, 0, line);
    InnerLineOfBlock("module.exports = {", RenderEntries(top, 1), "}", "\n", line);
  }

  /** In the output text, the `primary` group's lines carry the primary colour and the two
      interactive colours verbatim. */
  lemma PrimaryLines(s: DesignSystem, fmt: real -> string)
    ensures IsInnerLine(Indent(5) + "DEFAULT" + ": " + Quote(s.colors.primary) + ",", GenerateTailwind(s, fmt), "\n")
    ensures IsInnerLine(Indent(5) + "hover" + ": " + Quote(s.interactive.primaryHover) + ",", GenerateTailwind(s, fmt), "\n")
    ensures IsInnerLine(Indent(5) + "focus" + ": " + Quote(s.interactive.primaryFocus) + ",", GenerateTailwind(s, fmt), "\n")
  {
    ColorLeafLine(s, fmt, 0, 0);
    ColorLeafLine(s, fmt, 0, 1);
    ColorLeafLine(s, fmt, 0, 2);
  }

  /** In the output text, the `canvas` group's lines carry the light and the dark canvas. */
  lemma CanvasLines(s: DesignSystem, fmt: real -> string)
    ensures IsInnerLine(Indent(5) + "light" + ": " + Quote(s.colors.light.canvas) + ",", GenerateTailwind(s, fmt), "\n")
    ensures IsInnerLine(Indent(5) + "dark" + ": " + Quote(s.colors.dark.canvas) + ",", GenerateTailwind(s, fmt), "\n")
  {
    ColorLeafLine(s, fmt, 5, 0);
    ColorLeafLine(s, fmt, 5, 1);
  }

  /** In the output text, the `text` group's lines carry the light and the dark text colour. */
  lemma TextLines(s: DesignSystem, fmt: real -> string)
    ensures IsInnerLine(Indent(5) + "light" + ": " + Quote(s.colors.light.text) + ",", GenerateTailwind(s, fmt), "\n")
    ensures IsInnerLine(Indent(5) + "dark" + ": " + Quote(s.colors.dark.text) + ",", GenerateTailwind(s, fmt), "\n")
  {
    ColorLeafLine(s, fmt, 6, 0);
    ColorLeafLine(s, fmt, 6, 1);
  }

  /** The literal text found by following `path` from the top of the tree: the first entry
      with the leading key, then down into it. */
  function Lookup(entries: seq<Cfg>, path: seq<string>): Option<string>
    decreases entries, |path|
  {
    if |path| == 0 || |entries| == 0 then None
    else if entries[0].key != path[0] then Lookup(entries[1..], path)
    else match entries[0]
      case Leaf(_, raw) => if |path| == 1 then Some(raw) else None
      case Group(_, children) => Lookup(children, path[1..])
  }

  /** What the entry with the leading key gives for the rest of the path. */
  function Descend(c: Cfg, path: seq<string>): Option<string>
    requires |path| >= 1
  {
    match c
    case Leaf(_, raw) => if |path| == 1 then Some(raw) else None
    case Group(_, children) => Lookup(children, path[1..])
  }

  /** Lookup passes over the entries before the first one carrying the leading key. */
  lemma {:induction false} LookupFinds(entries: seq<Cfg>, path: seq<string>, i: nat)
    requires |path| >= 1 && i < |entries|
    requires forall j :: 0 <= j < i ==> entries[j].key != path[0]
    requires entries[i].key == path[0]
    ensures Lookup(entries, path) == Descend(entries[i], path)
    decreases i
  {
    if i > 0 {
      assert entries[0].key != path[0];
      LookupFinds(entries[1..], path, i - 1);
    }
  }

  function ColorPath(group: string, key: string): seq<string>
  {
    ["theme", "extend", "colors", group, key]
  }

  /** The colours group of the tree, reached through `theme` and `extend`. */
  lemma ColorsGroup(s: DesignSystem, fmt: real -> string, group: string, key: string)
    ensures Lookup(Config(s, fmt), ColorPath(group, key)) ==
              Lookup(Config(s, fmt)[0].entries[0].entries[0].entries, [group, key])
  {
    var path := ColorPath(group, key);
    var top := Config(s, fmt);
    LookupFinds(top, path, 0);
    LookupFinds(top[0].entries, path[1..], 0);
    LookupFinds(top[0].entries[0].entries, path[2..], 0);
    assert path[3..] == [group, key];
  }

  /** The `primary` group maps DEFAULT, hover and focus to the primary colour and the two
      interactive colours. */
  lemma PrimaryGroup(s: DesignSystem, fmt: real -> string)
    ensures Lookup(Config(s, fmt), ColorPath("primary", "DEFAULT")) == Some(Quote(s.colors.primary))
    ensures Lookup(Config(s, fmt), ColorPath("primary", "hover")) == Some(Quote(s.interactive.primaryHover))
    ensures Lookup(Config(s, fmt), ColorPath("primary", "focus")) == Some(Quote(s.interactive.primaryFocus))
  {
    var colors := Config(s, fmt)[0].entries[0].entries[0].entries;
    var primary := colors[0].entries;
    var keys := ["DEFAULT", "hover", "focus"];
    var values := [Quote(s.colors.primary), Quote(s.interactive.primaryHover), Quote(s.interactive.primaryFocus)];
    forall i | 0 <= i < 3 ensures Lookup(Config(s, fmt), ColorPath("primary", keys[i])) == Some(values[i]) {
      ColorsGroup(s, fmt, "primary", keys[i]);
      LookupFinds(colors, ["primary", keys[i]], 0);
      LookupFinds(primary, [keys[i]], i);
    }
    assert keys[0] == "DEFAULT" && keys[1] == "hover" && keys[2] == "focus";
  }

  /** The `canvas` group pairs the light canvas with the dark one. */
  lemma CanvasPair(s: DesignSystem, fmt: real -> string)
    ensures Lookup(Config(s, fmt), ColorPath("canvas", "light")) == Some(Quote(s.colors.light.canvas))
    ensures Lookup(Config(s, fmt), ColorPath("canvas", "dark")) == Some(Quote(s.colors.dark.canvas))
  {
    var colors := Config(s, fmt)[0].entries[0].entries[0].entries;
    ColorsGroup(s, fmt, "canvas", "light");
    ColorsGroup(s, fmt, "canvas", "dark");
    LookupFinds(colors, ["canvas", "light"], 5);
    LookupFinds(colors, ["canvas", "dark"], 5);
    LookupFinds(colors[5].entries, ["light"], 0);
    LookupFinds(colors[5].entries, ["dark"], 1);
  }

  /** The `text` group pairs the light text colour with the dark one. */
  lemma TextPair(s: DesignSystem, fmt: real -> string)
    ensures Lookup(Config(s, fmt), ColorPath("text", "light")) == Some(Quote(s.colors.light.text))
    ensures Lookup(Config(s, fmt), ColorPath("text", "dark")) == Some(Quote(s.colors.dark.text))
  {
    var colors := Config(s, fmt)[0].entries[0].entries[0].entries;
    ColorsGroup(s, fmt, "text", "light");
    ColorsGroup(s, fmt, "text", "dark");
    LookupFinds(colors, ["text", "light"], 6);
    LookupFinds(colors, ["text", "dark"], 6);
    LookupFinds(colors[6].entries, ["light"], 0);
    LookupFinds(colors[6].entries, ["dark"], 1);
  }
}
