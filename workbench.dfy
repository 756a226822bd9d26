/** The workbench panel's own colour handlers and its code view. Its `updateColor` is the
    token panel's write followed, when "Sync with Light" is on and a light canvas or light
    text was written, by a second write of the matching dark colour, taken from the opaque
    dark-counterpart generator (passed in as `counterpart`). The wand button rewrites both
    dark colours from the light ones. The code view shows one of the three exports. */
module Workbench {

  import opened Tokens
  import opened Wrappers
  import opened Text
  import opened ColorStore
  import Css
  import Tailwind
  import Blueprint

  // ---------------------------------------------------------------- synced colour write

  /** What a handler leaves behind: whether it reached `onChange`, and the colours object
      (which holds any write made before a throw). */
  datatype Outcome = Outcome(committed: bool, colors: Snapshot)

  /** The dark key the sync rewrites, and the generator's mode, for a written path. */
  function SyncTarget(path: seq<string>): Option<(string, string)>
  {
    if |path| >= 2 && path[0] == "light" && path[1] == "canvas" then Some(("canvas", "background"))
    else if |path| >= 2 && path[0] == "light" && path[1] == "text" then Some(("text", "text"))
    else None
  }

  /** The first write, then the dark write where the sync applies. */
  function SyncedAssign(snap: Snapshot, path: seq<string>, v: string, sync: bool,
                        counterpart: (string, string) -> string): (o: Outcome)
    ensures Assign(snap, path, v).None? ==> o == Outcome(false, snap)
  {
    match Assign(snap, path, v)
    case None => Outcome(false, snap)
    case Some(first) =>
      if sync && SyncTarget(path).Some? then
        var (key, mode) := SyncTarget(path).value;
        match Assign(first, ["dark", key], counterpart(v, mode))
        case None => Outcome(false, first)
        case Some(second) => Outcome(true, second)
      else Outcome(true, first)
  }

  /** With the sync off, or for any path other than the light canvas and light text, the
      handler is the token panel's plain write. */
  lemma NoSyncIsPlainWrite(snap: Snapshot, path: seq<string>, v: string, sync: bool,
                           counterpart: (string, string) -> string)
    requires !sync || SyncTarget(path).None?
    ensures var o := SyncedAssign(snap, path, v, sync, counterpart);
      var plain := Assign(snap, path, v);
      o.committed == plain.Some? && (plain.Some? ==> o.colors == plain.value)
  {
  }

  /** On a palette, a synced light-canvas write sets the light canvas and the dark canvas
      from it, and a synced light-text write the light text and the dark text; nothing else
      changes. */
  lemma SyncedLightWrites(p: Palette, v: string, counterpart: (string, string) -> string)
    ensures SyncedAssign(Encode(p), LeafPath(LightCanvas), v, true, counterpart) ==
              Outcome(true, Encode(WithColor(WithColor(p, LightCanvas, v), DarkCanvas, counterpart(v, "background"))))
    ensures SyncedAssign(Encode(p), LeafPath(LightText), v, true, counterpart) ==
              Outcome(true, Encode(WithColor(WithColor(p, LightText, v), DarkText, counterpart(v, "text"))))
  {
    AssignLeaf(p, LightCanvas, v);
    AssignLeaf(WithColor(p, LightCanvas, v), DarkCanvas, counterpart(v, "background"));
    AssignLeaf(p, LightText, v);
    AssignLeaf(WithColor(p, LightText, v), DarkText, counterpart(v, "text"));
  }

  /** The workbench's `updateColor`. */
  method UpdateColorSynced(system: System<ColorObject>, path: seq<string>, v: string, sync: bool,
                           counterpart: (string, string) -> string)
    returns (r: Option<System<ColorObject>>)
    requires Tree(system.colors)
    modifies system.colors, Children(system.colors)
    ensures Tree(system.colors)
    ensures r.Some? ==> r.value == system
    ensures SyncedAssign(old(Snap(system.colors)), path, v, sync, counterpart) ==
              Outcome(r.Some?, Snap(system.colors))
  {
    var newSystem := system;
    var ok := AssignPath(newSystem.colors, path, v);
    if !ok {
      return None;
    }
    if sync && |path| >= 1 && path[0] == "light" {
      if |path| >= 2 && path[1] == "canvas" {
        ok := AssignPath(newSystem.colors, ["dark", "canvas"], counterpart(v, "background"));
      } else if |path| >= 2 && path[1] == "text" {
        ok := AssignPath(newSystem.colors, ["dark", "text"], counterpart(v, "text"));
      }
    }
    r := if ok then Some(newSystem) else None;
  }

  // ---------------------------------------------------------------- auto-generate dark

  /** The light theme can be read: absent (the read throws), or an object holding both
      colours. A light theme that is a string, or lacks a colour, would hand `undefined` to
      the generator, which is not part of this model. */
  predicate LightReadable(snap: Snapshot)
  {
    "light" in snap ==>
      snap["light"].Obj? && "canvas" in snap["light"].fields && "text" in snap["light"].fields
  }

  /** The wand button: both dark colours generated from the light ones, or `None` where a
      read or a write throws (no light theme, or no dark theme object). */
  function AutoDark(snap: Snapshot, counterpart: (string, string) -> string): (r: Option<Snapshot>)
    requires LightReadable(snap)
    ensures r.Some? <==> "light" in snap && "dark" in snap && snap["dark"].Obj?
  {
    if "light" !in snap then None
    else
      var light := snap["light"].fields;
      var canvas := counterpart(light["canvas"], "background");
      AssignSucceeds(snap, ["dark", "canvas"], canvas);
      match Assign(snap, ["dark", "canvas"], canvas)
      case None => None
      case Some(first) =>
        AssignSucceeds(first, ["dark", "text"], counterpart(light["text"], "text"));
        Assign(first, ["dark", "text"], counterpart(light["text"], "text"))
  }

  /** On a palette, the wand replaces the dark pair by the generated counterparts of the
      light pair, and nothing else. */
  lemma AutoDarkPalette(p: Palette, counterpart: (string, string) -> string)
    ensures AutoDark(Encode(p), counterpart) ==
              Some(Encode(p.(dark := ThemePair(counterpart(p.light.canvas, "background"),
                                               counterpart(p.light.text, "text")))))
  {
    var canvas := counterpart(p.light.canvas, "background");
    var text := counterpart(p.light.text, "text");
    AssignLeaf(p, DarkCanvas, canvas);
    AssignLeaf(WithColor(p, DarkCanvas, canvas), DarkText, text);
  }

  /** The wand button's handler. */
  method AutoGenerateDark(system: System<ColorObject>, counterpart: (string, string) -> string)
    returns (r: Option<System<ColorObject>>)
    requires Tree(system.colors) && LightReadable(Snap(system.colors))
    modifies system.colors, Children(system.colors)
    ensures Tree(system.colors)
    ensures r.Some? ==> r.value == system
    ensures AutoDark(old(Snap(system.colors)), counterpart) == (if r.Some? then Some(Snap(system.colors)) else None)
  {
    var newSystem := system;
    if "light" !in system.colors.props {
      return None;
    }
    // Both light colours are read before the first write; the source reads the light text
    // after it, which is the same value because the light and dark themes are different
    // objects.
    var light := system.colors.props["light"].obj;
    assert light in Children(system.colors);
    assert SnapEntry(system.colors, "light") == Snap(system.colors)["light"];
    var lightCanvas := light.props["canvas"].s;
    var lightText := light.props["text"].s;
    var ok := AssignPath(newSystem.colors, ["dark", "canvas"], counterpart(lightCanvas, "background"));
    if !ok {
      return None;
    }
    ok := AssignPath(newSystem.colors, ["dark", "text"], counterpart(lightText, "text"));
    r := if ok then Some(newSystem) else None;
  }

  // ---------------------------------------------------------------- code view

  datatype CodeTab = BlueprintTab | CssTab | TailwindTab

  /** `getCodeContent()`: the CSS for the CSS tab, the Tailwind config for the Tailwind tab,
      and the blueprint prompt otherwise. Each export opens with its own header. */
  function CodeContent(s: DesignSystem, tab: CodeTab, fmt: real -> string): (text: string)
    ensures tab == CssTab ==> ":root {" <= text
    ensures tab == TailwindTab ==> "module.exports = {" <= text
    ensures tab == BlueprintTab ==> Blueprint.TitleLine(s.layout) <= text
  {
    if tab == CssTab then Css.GenerateCss(s, fmt)
    else if tab == TailwindTab then Tailwind.GenerateTailwind(s, fmt)
    else Blueprint.GeneratePrompt(s, fmt)
  }
}
