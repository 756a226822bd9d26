/** The live colours object and the path-walking write both panels perform on it.

    The record handed around the editor holds its colours by reference: `{...system}` copies
    the record but not the colours object, so a write through the copy is seen through the
    original as well. Here the colours are a `ColorObject` on the heap — the root holding
    brand colours as strings and the two themes as child objects of strings — and a record
    is a `System<ColorObject>` value: copying it copies the reference.

    The walk `current = colors; for (i < path.length - 1) current = current[path[i]];
    current[path[path.length - 1]] = value` is specified against the same walk over a value
    snapshot of the object (`Assign`). Reading a key from a string gives `undefined`, reading
    from `undefined` throws, and assigning onto a string or `undefined` throws (module code is
    strict); a throw means the write does not happen and the caller's `onChange` is never
    reached. */
module ColorStore {

  import opened Tokens
  import opened Wrappers

  // ---------------------------------------------------------------- value snapshots

  /** A property of the colours object as a value: a colour string, or a theme object of
      colour strings. */
  datatype Entry = Str(s: string) | Obj(fields: map<string, string>)

  type Snapshot = map<string, Entry>

  /** Where the walk stands after reading some keys: at the root object, at the theme object
      under `key`, at a string, at `undefined`, or past a thrown `TypeError`. */
  datatype Place = Root | Inner(key: string) | Primitive | Missing | Thrown

  function Step(snap: Snapshot, at: Place, key: string): Place
  {
    match at
    case Root =>
      if key !in snap then Missing
      else if snap[key].Str? then Primitive
      else Inner(key)
    case Inner(p) =>
      if p in snap && snap[p].Obj? && key in snap[p].fields then Primitive else Missing
    case Primitive => Missing
    case Missing => Thrown
    case Thrown => Thrown
  }

  /** The place reached by reading `keys` in turn, starting from the root. */
  function Walk(snap: Snapshot, keys: seq<string>): Place
  {
    if |keys| == 0 then Root else Step(snap, Walk(snap, keys[..|keys| - 1]), keys[|keys| - 1])
  }

  /** The key the final assignment uses: `path[path.length - 1]`, which for an empty path is
      `undefined`, written as the property name "undefined". */
  function LastKey(path: seq<string>): string
  {
    if |path| == 0 then "undefined" else path[|path| - 1]
  }

  /** Every key but the last: the ones the loop walks. */
  function WalkedKeys(path: seq<string>): seq<string>
  {
    if |path| == 0 then [] else path[..|path| - 1]
  }

  /** The snapshot after the walk-and-assign, or `None` when it throws. */
  function Assign(snap: Snapshot, path: seq<string>, v: string): (r: Option<Snapshot>)
    ensures r.Some? && |path| <= 1 ==> r.value == snap[LastKey(path) := Str(v)]
    ensures r.Some? && |path| == 2 ==>
              path[0] in snap && snap[path[0]].Obj? &&
              r.value == snap[path[0] := Obj(snap[path[0]].fields[path[1] := v])]
  {
    var key := LastKey(path);
    match Walk(snap, WalkedKeys(path))
    case Root => Some(snap[key := Str(v)])
    case Inner(p) =>
      if p in snap && snap[p].Obj? then Some(snap[p := Obj(snap[p].fields[key := v])]) else None
    case _ => None
  }

  /** A path of one key always succeeds; a path of two succeeds exactly when its first key
      names a theme object; a longer path always throws. */
  lemma {:induction false} AssignSucceeds(snap: Snapshot, path: seq<string>, v: string)
    ensures |path| <= 1 ==> Assign(snap, path, v).Some?
    ensures |path| == 2 ==> (Assign(snap, path, v).Some? <==> path[0] in snap && snap[path[0]].Obj?)
    ensures |path| >= 3 ==> Assign(snap, path, v).None?
  {
    if |path| == 2 {
      assert WalkedKeys(path) == [path[0]];
      assert Walk(snap, [path[0]]) == Step(snap, Root, path[0]) by {
        assert [path[0]][..0] == [];
      }
    } else if |path| >= 3 {
      WalkDeep(snap, WalkedKeys(path));
    }
  }

  /** Two keys lead at most to a string; every further key to `undefined` or past a throw. */
  lemma {:induction false} WalkDeep(snap: Snapshot, keys: seq<string>)
    requires |keys| >= 2
    ensures Walk(snap, keys) in {Primitive, Missing, Thrown}
  {
    var front := keys[..|keys| - 1];
    if |keys| == 2 {
      assert front == [keys[0]];
      assert Walk(snap, front) == Step(snap, Root, keys[0]) by {
        assert front[..0] == [];
      }
    } else {
      WalkDeep(snap, front);
    }
  }

  /** Once the walk has thrown, or stands at `undefined` with a key still to read, the whole
      walk throws. */
  lemma {:induction false} WalkThrows(snap: Snapshot, keys: seq<string>, i: nat)
    requires i < |keys| && Walk(snap, keys[..i]) in {Missing, Thrown}
    ensures Walk(snap, keys) == Thrown
  {
    var front := keys[..|keys| - 1];
    if i < |keys| - 1 {
      assert front[..i] == keys[..i];
      WalkThrows(snap, front, i);
    } else {
      assert front == keys[..i];
    }
  }

  // ---------------------------------------------------------------- the palette as a snapshot

  /** The colour leaves the panels address. */
  datatype ColorLeaf =
    | Primary | Secondary | Accent | Success | Error
    | LightCanvas | LightText | DarkCanvas | DarkText

  /** The path each colour input passes to `updateColor`. */
  function LeafPath(leaf: ColorLeaf): (path: seq<string>)
    ensures 1 <= |path| <= 2
  {
    match leaf
    case Primary => ["primary"]
    case Secondary => ["secondary"]
    case Accent => ["accent"]
    case Success => ["success"]
    case Error => ["error"]
    case LightCanvas => ["light", "canvas"]
    case LightText => ["light", "text"]
    case DarkCanvas => ["dark", "canvas"]
    case DarkText => ["dark", "text"]
  }

  function ColorOf(p: Palette, leaf: ColorLeaf): string
  {
    match leaf
    case Primary => p.primary
    case Secondary => p.secondary
    case Accent => p.accent
    case Success => p.success
    case Error => p.error
    case LightCanvas => p.light.canvas
    case LightText => p.light.text
    case DarkCanvas => p.dark.canvas
    case DarkText => p.dark.text
  }

  /** The palette with one leaf replaced. */
  function WithColor(p: Palette, leaf: ColorLeaf, v: string): (r: Palette)
    ensures ColorOf(r, leaf) == v
    ensures forall other :: other != leaf ==> ColorOf(r, other) == ColorOf(p, other)
  {
    match leaf
    case Primary => p.(primary := v)
    case Secondary => p.(secondary := v)
    case Accent => p.(accent := v)
    case Success => p.(success := v)
    case Error => p.(error := v)
    case LightCanvas => p.(light := p.light.(canvas := v))
    case LightText => p.(light := p.light.(text := v))
    case DarkCanvas => p.(dark := p.dark.(canvas := v))
    case DarkText => p.(dark := p.dark.(text := v))
  }

  function EncodeTheme(t: ThemePair): Entry
  {
    Obj(map["canvas" := t.canvas, "text" := t.text])
  }

  /** The colours object of a palette, as a snapshot. */
  function Encode(p: Palette): Snapshot
  {
    map["primary" := Str(p.primary), "secondary" := Str(p.secondary), "accent" := Str(p.accent),
        "success" := Str(p.success), "error" := Str(p.error),
        "light" := EncodeTheme(p.light), "dark" := EncodeTheme(p.dark)]
  }

  /** A one-key path writes that key of the root. */
  lemma AssignTop(snap: Snapshot, k: string, v: string)
    ensures Assign(snap, [k], v) == Some(snap[k := Str(v)])
  {
    assert WalkedKeys([k]) == [];
  }

  /** A two-key path through a theme object writes that field of the theme. */
  lemma AssignInTheme(snap: Snapshot, k: string, f: string, v: string)
    requires k in snap && snap[k].Obj?
    ensures Assign(snap, [k, f], v) == Some(snap[k := Obj(snap[k].fields[f := v])])
  {
    assert WalkedKeys([k, f]) == [k];
    assert Walk(snap, [k]) == Step(snap, Root, k) by {
      assert [k][..0] == [];
    }
  }

  /** Every colour input's write lands on its own leaf: the object afterwards is the palette
      with that one colour replaced. */
  lemma AssignLeaf(p: Palette, leaf: ColorLeaf, v: string)
    ensures Assign(Encode(p), LeafPath(leaf), v) == Some(Encode(WithColor(p, leaf, v)))
  {
    if leaf.LightCanvas? || leaf.LightText? || leaf.DarkCanvas? || leaf.DarkText? {
      AssignThemeLeaf(p, leaf, v);
    } else {
      AssignTopLeaf(p, leaf, v);
    }
  }

  /** The four theme leaves: a write into the light or dark object. */
  lemma AssignThemeLeaf(p: Palette, leaf: ColorLeaf, v: string)
    requires leaf.LightCanvas? || leaf.LightText? || leaf.DarkCanvas? || leaf.DarkText?
    ensures Assign(Encode(p), LeafPath(leaf), v) == Some(Encode(WithColor(p, leaf, v)))
  {
    var light := leaf.LightCanvas? || leaf.LightText?;
    var canvas := leaf.LightCanvas? || leaf.DarkCanvas?;
    var key := if light then "light" else "dark";
    var field := if canvas then "canvas" else "text";
    assert LeafPath(leaf) == [key, field];
    AssignInTheme(Encode(p), key, field, v);
    EncodeThemeUpdate(p, light, canvas, v);
  }

  /** The five top-level leaves: a write of one key of the colours object. */
  lemma AssignTopLeaf(p: Palette, leaf: ColorLeaf, v: string)
    requires !(leaf.LightCanvas? || leaf.LightText? || leaf.DarkCanvas? || leaf.DarkText?)
    ensures Assign(Encode(p), LeafPath(leaf), v) == Some(Encode(WithColor(p, leaf, v)))
  {
    var k := LeafPath(leaf)[0];
    assert LeafPath(leaf) == [k];
    AssignTop(Encode(p), k, v);
    EncodeTopUpdate(p, leaf, v);
  }

  /** Writing a top-level colour is writing that entry of the snapshot. */
  lemma EncodeTopUpdate(p: Palette, leaf: ColorLeaf, v: string)
    requires !(leaf.LightCanvas? || leaf.LightText? || leaf.DarkCanvas? || leaf.DarkText?)
    ensures Encode(WithColor(p, leaf, v)) == Encode(p)[LeafPath(leaf)[0] := Str(v)]
  {
    match leaf
    case Primary =>
    case Secondary =>
    case Accent =>
    case Success =>
    case Error =>
  }

  /** Writing one field of a theme object is writing that entry of the snapshot. */
  lemma EncodeThemeUpdate(p: Palette, light: bool, canvas: bool, v: string)
    ensures var key := if light then "light" else "dark";
      var field := if canvas then "canvas" else "text";
      var theme := if light then p.light else p.dark;
      var theme' := if canvas then theme.(canvas := v) else theme.(text := v);
      var p' := if light then p.(light := theme') else p.(dark := theme');
      Encode(p') == Encode(p)[key := Obj(EncodeTheme(theme).fields[field := v])]
  {
    var theme := if light then p.light else p.dark;
    var field := if canvas then "canvas" else "text";
    var theme' := if canvas then theme.(canvas := v) else theme.(text := v);
    assert EncodeTheme(theme') == Obj(EncodeTheme(theme).fields[field := v]);
  }

  // ---------------------------------------------------------------- the heap object

  datatype Prop = Text(s: string) | Child(obj: ColorObject)

  class ColorObject {
    var props: map<string, Prop>
  }

  /** The theme objects hanging off the root. */
  function Children(root: ColorObject): set<ColorObject>
    reads root
  {
    set k | k in root.props && root.props[k].Child? :: root.props[k].obj
  }

  /** The shape of a colours object: two levels, each theme object under one key only, all
      theme properties strings. */
  predicate Tree(root: ColorObject)
    reads root, Children(root)
  {
    root !in Children(root) &&
    (forall k1, k2 ::
       (k1 in root.props && k2 in root.props && k1 != k2 && root.props[k1].Child? && root.props[k2].Child?) ==>
         root.props[k1].obj != root.props[k2].obj) &&
    (forall c :: c in Children(root) ==> forall k :: k in c.props ==> c.props[k].Text?)
  }

  function SnapEntry(root: ColorObject, k: string): Entry
    requires k in root.props && Tree(root)
    reads root, Children(root)
  {
    match root.props[k]
    case Text(s) => Str(s)
    case Child(c) => Obj(map j | j in c.props :: c.props[j].s)
  }

  /** The current contents of the object, as a value. */
  function Snap(root: ColorObject): (snap: Snapshot)
    requires Tree(root)
    reads root, Children(root)
    ensures snap.Keys == root.props.Keys
  {
    map k | k in root.props :: SnapEntry(root, k)
  }

  /** What the walking variable holds: an object, a string, or `undefined`. */
  datatype Cur = Ref(obj: ColorObject) | Prim(s: string) | Undefined

  /** The walking variable stands where the value walk stands. */
  predicate Denotes(root: ColorObject, cur: Cur, at: Place)
    reads root
  {
    match at
    case Root => cur == Ref(root)
    case Inner(p) => p in root.props && root.props[p].Child? && cur == Ref(root.props[p].obj)
    case Primitive => cur.Prim?
    case Missing => cur == Undefined
    case Thrown => false
  }

  /** The loop of the write: read `keys` in turn from the root. `thrown` is a read from
      `undefined`; otherwise `cur` stands where the value walk stands. */
  method WalkKeys(root: ColorObject, keys: seq<string>) returns (cur: Cur, thrown: bool)
    requires Tree(root)
    ensures thrown <==> Walk(Snap(root), keys) == Thrown
    ensures !thrown ==> Denotes(root, cur, Walk(Snap(root), keys))
  {
    ghost var snap := Snap(root);
    cur := Ref(root);
    var i := 0;
    while i < |keys|
      invariant 0 <= i <= |keys|
      invariant Denotes(root, cur, Walk(snap, keys[..i]))
    {
      assert keys[..i + 1][..i] == keys[..i];
      match cur {
        case Ref(o) =>
          if o == root {
            cur := if keys[i] !in o.props then Undefined
                   else if o.props[keys[i]].Text? then Prim(o.props[keys[i]].s)
                   else Ref(o.props[keys[i]].obj);
          } else {
            cur := if keys[i] in o.props then Prim(o.props[keys[i]].s) else Undefined;
          }
        case Prim(_) =>
          cur := Undefined;
        case Undefined =>
          WalkThrows(snap, keys, i);
          assert keys[..|keys|] == keys;
          return cur, true;
      }
      i := i + 1;
    }
    assert keys[..|keys|] == keys;
    thrown := false;
  }

  /** `colors[key] = v`. */
  method SetRootKey(root: ColorObject, key: string, v: string)
    requires Tree(root)
    modifies root
    ensures Tree(root) && Children(root) <= old(Children(root))
    ensures Snap(root) == old(Snap(root))[key := Str(v)]
  {
    ghost var snap := Snap(root);
    ghost var kids := Children(root);
    root.props := root.props[key := Text(v)];
    assert Children(root) <= kids by {
      forall c | c in Children(root) ensures c in kids {
        var k :| k in root.props && root.props[k].Child? && root.props[k].obj == c;
        assert k != key;
      }
    }
    assert Tree(root);
    forall k | k in root.props ensures SnapEntry(root, k) == snap[key := Str(v)][k] {
    }
  }

  /** `current[key] = v`, where `current` is the theme object under `p`. */
  method SetChildKey(root: ColorObject, o: ColorObject, ghost p: string, key: string, v: string)
    requires Tree(root) && p in root.props && root.props[p].Child? && root.props[p].obj == o
    modifies o
    ensures Tree(root) && Children(root) == old(Children(root))
    ensures p in old(Snap(root)) && old(Snap(root))[p].Obj?
    ensures Snap(root) == old(Snap(root))[p := Obj(old(Snap(root))[p].fields[key := v])]
  {
    ghost var snap := Snap(root);
    ghost var fields := snap[p].fields;
    o.props := o.props[key := Text(v)];
    assert SnapEntry(root, p) == Obj(fields[key := v]) by {
      assert (map j | j in o.props :: o.props[j].s) == fields[key := v];
    }
    assert forall k :: k in root.props && k != p ==> SnapEntry(root, k) == snap[k];
  }

  /** The write: walk every key but the last from the root, then assign the last. Returns
      false, having changed nothing, where the walk or the assignment throws. */
  method AssignPath(root: ColorObject, path: seq<string>, v: string) returns (ok: bool)
    requires Tree(root)
    modifies root, Children(root)
    ensures Tree(root) && Children(root) <= old(Children(root))
    ensures Assign(old(Snap(root)), path, v) == (if ok then Some(Snap(root)) else None)
    ensures !ok ==> Snap(root) == old(Snap(root))
  {
    ghost var snap := Snap(root);
    var keys := WalkedKeys(path);
    var cur, thrown := WalkKeys(root, keys);
    if thrown {
      return false;
    }
    ghost var at := Walk(snap, keys);
    var key := LastKey(path);
    match cur {
      case Ref(o) =>
        if o == root {
          assert at == Root;
          SetRootKey(root, key, v);
        } else {
          assert at.Inner?;
          SetChildKey(root, o, at.key, key, v);
        }
        return true;
      case _ =>
        return false;
    }
  }

  /** `updateColor(path, value)` as the token panel runs it: copy the record shallowly, write
      through the copy, hand the copy on. The copy and the original share their colours, so
      the original sees the write too. `None` is a thrown walk: nothing was written and
      nothing is handed on. */
  method UpdateColor(system: System<ColorObject>, path: seq<string>, v: string) returns (r: Option<System<ColorObject>>)
    requires Tree(system.colors)
    modifies system.colors, Children(system.colors)
    ensures Tree(system.colors) && Children(system.colors) <= old(Children(system.colors))
    ensures r.Some? ==> r.value == system
    ensures Assign(old(Snap(system.colors)), path, v) == (if r.Some? then Some(Snap(system.colors)) else None)
    ensures r.None? ==> Snap(system.colors) == old(Snap(system.colors))
  {
    var newSystem := system;
    var ok := AssignPath(newSystem.colors, path, v);
    r := if ok then Some(newSystem) else None;
  }
}
