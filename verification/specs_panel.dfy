/**
 * The export of a design as a JSON developer kit: the download file name and
 * the exported object.
 */
module SpecsPanel {
  import opened Base
  import opened Text
  import opened Types

  // ---------------------------------------------------------------- file name

  /**
   * `s.replace(/\s+/g, '-')`: every maximal run of white space becomes one '-'.
   * A run is consumed by `TrimStart`, which drops exactly the leading white space.
   */
  function CollapseSpaces(s: string): (r: string)
    ensures NoSpace(r)
    ensures |r| <= |s|
    decreases |s|
  {
    if s == [] then []
    else if IsSpace(s[0]) then
      "-" + CollapseSpaces(TrimStart(s))
    else [s[0]] + CollapseSpaces(s[1..])
  }

  /** Text without white space is left as it is. */
  lemma {:induction false} CollapseNoSpace(s: string)
    requires NoSpace(s)
    ensures CollapseSpaces(s) == s
  {
    if s != [] {
      assert NoSpace(s[1..]) by {
        forall i | 0 <= i < |s[1..]| ensures !IsSpace(s[1..][i]) {
          assert s[1..][i] == s[i + 1];
        }
      }
      CollapseNoSpace(s[1..]);
    }
  }

  /** A non-empty run of white space becomes a single '-'. */
  lemma CollapseRun(s: string)
    requires |s| > 0 && AllSpace(s)
    ensures CollapseSpaces(s) == "-"
  {
    assert TrimStart(s) == [];
  }

  /**
   * Replacement works piecewise when the cut is not inside a run of white space:
   * either the left piece ends, or the right piece begins, with a non-space.
   */
  lemma {:induction false} CollapseSplit(a: string, b: string)
    requires a == [] || b == [] || !IsSpace(a[|a| - 1]) || !IsSpace(b[0])
    ensures CollapseSpaces(a + b) == CollapseSpaces(a) + CollapseSpaces(b)
    decreases |a|, 1
  {
    if a == [] {
      assert a + b == b;
    } else if b == [] {
      assert a + b == a;
    } else if !IsSpace(a[0]) {
      assert (a + b)[1..] == a[1..] + b;
      CollapseSplit(a[1..], b);
    } else {
      CollapseSplitRun(a, b);
    }
  }

  /** The case of `CollapseSplit` where `a` begins with a run of white space. */
  lemma {:induction false} CollapseSplitRun(a: string, b: string)
    requires a != [] && b != [] && IsSpace(a[0])
    requires !IsSpace(a[|a| - 1]) || !IsSpace(b[0])
    ensures CollapseSpaces(a + b) == CollapseSpaces(a) + CollapseSpaces(b)
    decreases |a|, 0
  {
    var ra := TrimStart(a);
    RunPrefix(a, b);
    CollapseSplit(ra, b);
    AppendAssoc("-", CollapseSpaces(ra), CollapseSpaces(b));
  }

  /** Unfolding the leading run of white space of `a`, alone and in front of `b`. */
  lemma {:induction false} RunPrefix(a: string, b: string)
    requires a != [] && b != [] && IsSpace(a[0])
    requires !IsSpace(a[|a| - 1]) || !IsSpace(b[0])
    ensures var ra := TrimStart(a);
      && CollapseSpaces(a + b) == "-" + CollapseSpaces(ra + b)
      && CollapseSpaces(a) == "-" + CollapseSpaces(ra)
      && (ra == [] || ra[|ra| - 1] == a[|a| - 1])
  {
    var ra := TrimStart(a);
    if ra == [] {
      assert a[..|a| - |ra|][|a| - 1] == a[|a| - 1];
    } else {
      assert ra[|ra| - 1] == a[|a| - 1];
    }
    TrimStartAppend(a, b);
    assert (a + b)[0] == a[0];
  }

  /** Trimming the front of `w + t`, where `w` is all white space and `t` starts with a non-space, leaves `t`. */
  lemma {:induction false} TrimStartSkip(w: string, t: string)
    requires AllSpace(w)
    requires t == [] || !IsSpace(t[0])
    ensures TrimStart(w + t) == t
    decreases |w|
  {
    if w != [] {
      assert (w + t)[1..] == w[1..] + t;
      TrimStartSkip(w[1..], t);
    } else {
      assert w + t == t;
    }
  }

  /** Appending after a piece that does not end in white space commutes with trimming the front. */
  lemma TrimStartAppend(w: string, t: string)
    requires TrimStart(w) != [] || t == [] || !IsSpace(t[0])
    ensures TrimStart(w + t) == TrimStart(w) + t
  {
    var r := TrimStart(w);
    var pre := w[..|w| - |r|];
    RegroupAppend(w, pre, r, t);
    if r != [] {
      assert (r + t)[0] == r[0];
    }
    TrimStartSkip(pre, r + t);
  }

  /** `w + t` regrouped around the split `w == pre + r`. */
  lemma RegroupAppend(w: string, pre: string, r: string, t: string)
    requires |r| <= |w| && pre == w[..|w| - |r|] && r == w[|w| - |r|..]
    ensures w + t == pre + (r + t)
  {
    assert w == pre + r;
  }

  /** The slug of a design name: white-space runs become '-', then lower case. */
  function Slug(name: string): (r: string)
    ensures NoSpace(r)
    ensures |r| <= |name|
    ensures forall i | 0 <= i < |r| :: !('A' <= r[i] <= 'Z')
  {
    Lower(CollapseSpaces(name))
  }

  /** A slug is its own slug. */
  lemma SlugIdempotent(name: string)
    ensures Slug(Slug(name)) == Slug(name)
  {
    var s := Slug(name);
    CollapseNoSpace(s);
    assert Lower(s) == s;
  }

  /** `id.slice(0, 8)`. */
  function IdPrefix(id: string): string {
    Take(id, 8)
  }

  /** The download name `watch-face-<slug>-<idPrefix>.json`. */
  function FileName(d: Design): string {
    "watch-face-" + Slug(d.name) + "-" + IdPrefix(d.id) + ".json"
  }

  /**
   * The file name has the fixed prefix and extension, the slug after the prefix,
   * and the first eight (or fewer) characters of the id right before ".json";
   * it holds no white space when the id holds none.
   */
  lemma FileNameShape(d: Design)
    ensures var f, p := FileName(d), IdPrefix(d.id);
      && |f| == 11 + |Slug(d.name)| + 1 + |p| + 5
      && f[..11] == "watch-face-"
      && f[11..11 + |Slug(d.name)|] == Slug(d.name)
      && f[|f| - 5..] == ".json"
      && f[|f| - 5 - |p| - 1] == '-'
      && f[|f| - 5 - |p|..|f| - 5] == p
  {
    var s, p := Slug(d.name), IdPrefix(d.id);
    var a := "watch-face-" + s;
    var b := a + "-" + p;
    assert FileName(d) == b + ".json";
    assert b[..|a|] == a && b[|a|] == '-' && b[|a| + 1..] == p;
    assert a[..11] == "watch-face-" && a[11..] == s;
  }

  /** A file name holds no white space when the design id holds none. */
  lemma FileNameNoSpace(d: Design)
    requires NoSpace(d.id)
    ensures NoSpace(FileName(d))
  {
    var f, s, p := FileName(d), Slug(d.name), IdPrefix(d.id);
    assert NoSpace(p) by {
      forall i | 0 <= i < |p| ensures !IsSpace(p[i]) { assert p[i] == d.id[i]; }
    }
    forall i | 0 <= i < |f| ensures !IsSpace(f[i]) {
      if i < 11 {
      } else if i < 11 + |s| {
        assert f[i] == s[i - 11];
      } else if i == 11 + |s| {
      } else if i < 12 + |s| + |p| {
        assert f[i] == p[i - 12 - |s|];
      }
    }
  }

  // ---------------------------------------------------------------- export object

  /** The JSON values a design serialises to. */
  datatype Json = JStr(s: string) | JNum(n: int) | JArr(items: seq<Json>)

  /** The property names of an exported object. */
  datatype Key =
    | Id | Name | Description | Style | TargetDevice | ColorPalette | ComplicationList
    | VisualPrompt | OriginalPrompt | ImageUrl | CreatedAt | Language | ExportedAt | ToolName

  /** The property name as it appears in the JSON text. */
  function KeyName(k: Key): string {
    match k
    case Id => "id"
    case Name => "name"
    case Description => "description"
    case Style => "style"
    case TargetDevice => "targetDevice"
    case ColorPalette => "colorPalette"
    case ComplicationList => "complications"
    case VisualPrompt => "visualPrompt"
    case OriginalPrompt => "originalPrompt"
    case ImageUrl => "imageUrl"
    case CreatedAt => "createdAt"
    case Language => "language"
    case ExportedAt => "exportedAt"
    case ToolName => "tool"
  }

  /** Distinct keys have distinct property names. */
  lemma KeyNamesDistinct(a: Key, b: Key)
    requires a != b
    ensures KeyName(a) != KeyName(b)
  {}

  const Tool := "ChronoGen AI"

  function StrArray(xs: seq<string>): (r: Json)
    ensures r.JArr? && |r.items| == |xs|
  {
    JArr(seq(|xs|, i requires 0 <= i < |xs| => JStr(xs[i])))
  }

  /** The strings of a JSON array of strings. */
  function ArrayStrs(j: Json): Option<seq<string>> {
    if j.JArr? && forall i | 0 <= i < |j.items| :: j.items[i].JStr?
    then Some(seq(|j.items|, i requires 0 <= i < |j.items| && j.items[i].JStr? => j.items[i].s))
    else None
  }

  lemma {:induction false} ArrayRoundTrip(xs: seq<string>)
    ensures ArrayStrs(StrArray(xs)) == Some(xs)
  {
    var j := StrArray(xs);
    assert forall i | 0 <= i < |j.items| :: j.items[i] == JStr(xs[i]);
    var ys := ArrayStrs(j).value;
    assert ys == xs;
  }

  const AllKeys: set<Key> := {
    Id, Name, Description, Style, TargetDevice, ColorPalette, ComplicationList,
    VisualPrompt, OriginalPrompt, ImageUrl, CreatedAt, Language, ExportedAt, ToolName}

  /** The value of one property of a design object; `imageUrl` may be absent. */
  function Field(d: Design, k: Key): Option<Json> {
    match k
    case Id => Some(JStr(d.id))
    case Name => Some(JStr(d.name))
    case Description => Some(JStr(d.description))
    case Style => Some(JStr(d.style))
    case TargetDevice => Some(JStr(d.targetDevice))
    case ColorPalette => Some(StrArray(d.colorPalette))
    case ComplicationList => Some(StrArray(d.complications))
    case VisualPrompt => Some(JStr(d.visualPrompt))
    case OriginalPrompt => Some(JStr(d.originalPrompt))
    case ImageUrl => if d.imageUrl.Some? then Some(JStr(d.imageUrl.value)) else None
    case CreatedAt => Some(JNum(d.createdAt))
    case Language => Some(JStr(d.language))
    case ExportedAt => None
    case ToolName => None
  }

  /** The own enumerable properties of a design object. */
  function Fields(d: Design): map<Key, Json> {
    map k | k in AllKeys && Field(d, k).Some? :: Field(d, k).value
  }

  /**
   * One property of `{...data, exportedAt, tool: 'ChronoGen AI'}`: the two added
   * properties come after the spread and so take precedence over it.
   */
  function ExportField(d: Design, exportedAt: string, k: Key): Option<Json> {
    if k == ExportedAt then Some(JStr(exportedAt))
    else if k == ToolName then Some(JStr(Tool))
    else Field(d, k)
  }

  /** The exported object. */
  function ExportData(d: Design, exportedAt: string): map<Key, Json> {
    map k | k in AllKeys && ExportField(d, exportedAt, k).Some? :: ExportField(d, exportedAt, k).value
  }

  function Str(m: map<Key, Json>, k: Key): Option<string> {
    if k in m && m[k].JStr? then Some(m[k].s) else None
  }

  function Strs(m: map<Key, Json>, k: Key): Option<seq<string>> {
    if k in m then ArrayStrs(m[k]) else None
  }

  /** Reads a design back from an exported object. */
  function DesignOf(m: map<Key, Json>): Option<Design> {
    if && Str(m, Id).Some? && Str(m, Name).Some? && Str(m, Description).Some?
       && Str(m, Style).Some? && Str(m, TargetDevice).Some?
       && Strs(m, ColorPalette).Some? && Strs(m, ComplicationList).Some?
       && Str(m, VisualPrompt).Some? && Str(m, OriginalPrompt).Some?
       && CreatedAt in m && m[CreatedAt].JNum? && Str(m, Language).Some?
    then Some(Design(
      Str(m, Id).value, Str(m, Name).value, Str(m, Description).value,
      Str(m, Style).value, Str(m, TargetDevice).value,
      Strs(m, ColorPalette).value, Strs(m, ComplicationList).value,
      Str(m, VisualPrompt).value, Str(m, OriginalPrompt).value,
      Str(m, ImageUrl), m[CreatedAt].n, Str(m, Language).value))
    else None
  }

  /**
   * The export keeps every property of the design with its value and adds
   * exactly `exportedAt` and `tool = 'ChronoGen AI'`.
   */
  lemma ExportKeepsFields(d: Design, exportedAt: string)
    ensures var e := ExportData(d, exportedAt);
      && e.Keys == Fields(d).Keys + {ExportedAt, ToolName}
      && (forall k | k in Fields(d) :: e[k] == Fields(d)[k])
      && e[ToolName] == JStr("ChronoGen AI")
      && e[ExportedAt] == JStr(exportedAt)
  {
  }

  /** The string properties `DesignOf` reads, looked up in an export. */
  lemma ExportStrings(d: Design, exportedAt: string)
    ensures var e := ExportData(d, exportedAt);
      && Str(e, Id) == Some(d.id) && Str(e, Name) == Some(d.name)
      && Str(e, Description) == Some(d.description) && Str(e, Style) == Some(d.style)
      && Str(e, TargetDevice) == Some(d.targetDevice)
  {}

  /** The remaining properties `DesignOf` reads, looked up in an export. */
  lemma ExportOthers(d: Design, exportedAt: string)
    ensures var e := ExportData(d, exportedAt);
      && Str(e, VisualPrompt) == Some(d.visualPrompt)
      && Str(e, OriginalPrompt) == Some(d.originalPrompt) && Str(e, Language) == Some(d.language)
      && Str(e, ImageUrl) == d.imageUrl
  {}

  /** The number and the arrays of an export. */
  lemma ExportArrays(d: Design, exportedAt: string)
    ensures var e := ExportData(d, exportedAt);
      && CreatedAt in e && e[CreatedAt] == JNum(d.createdAt)
      && ColorPalette in e && e[ColorPalette] == StrArray(d.colorPalette)
      && ComplicationList in e && e[ComplicationList] == StrArray(d.complications)
  {}

  /** The design can be read back from its export unchanged. */
  lemma {:induction false} ExportRoundTrip(d: Design, exportedAt: string)
    ensures DesignOf(ExportData(d, exportedAt)) == Some(d)
  {
    ExportStrings(d, exportedAt);
    ExportOthers(d, exportedAt);
    ExportArrays(d, exportedAt);
    ArrayRoundTrip(d.colorPalette);
    ArrayRoundTrip(d.complications);
  }
}
