/**
 * The token generator: the design tokens become CSS custom properties (one line per leaf,
 * named by the leaf's key path) and a React Native theme in which every "px" string is a
 * number and the shadows are replaced by native shadow objects.
 */
module GenerateTokens {
  import opened Wrappers
  import opened JsText
  import opened JsonValue

  // ---------------------------------------------------------------------------
  // CSS variables

  /** The declaration for one leaf: two spaces, `--`, the path joined by `-`, `: `, the value, `;`. */
  function VarLine(path: seq<string>, v: Json): string {
    "  --" + JoinWith(path, "-") + ": " + JsString(v) + ";"
  }

  /** `toVars(obj, prefix)`: plain objects are descended into, every other value is a leaf. */
  function ToVars(v: Json, prefix: seq<string>): (vars: seq<string>)
    ensures vars == Lines(prefix, Leaves(Entries(v)))
    ensures |vars| == |Leaves(Entries(v))|
  {
    EntriesVarsAreLeaves(Entries(v), prefix);
    EntriesVars(Entries(v), prefix)
  }

  function EntriesVars(es: seq<(string, Json)>, prefix: seq<string>): seq<string>
    decreases es
  {
    if es == [] then []
    else
      var (k, x) := es[0];
      assert x < es[0];
      (if x.Obj? then EntriesVars(x.entries, prefix + [k]) else [VarLine(prefix + [k], x)]) +
      EntriesVars(es[1..], prefix)
  }

  /** The leaves under some entries, depth first in key order: each with its key path. */
  function Leaves(es: seq<(string, Json)>): (leaves: seq<(seq<string>, Json)>)
    ensures forall i :: 0 <= i < |leaves| ==> leaves[i].0 != [] && !leaves[i].1.Obj?
    decreases es
  {
    if es == [] then []
    else
      var (k, x) := es[0];
      assert x < es[0];
      (if x.Obj? then Prefixed(k, Leaves(x.entries)) else [([k], x)]) + Leaves(es[1..])
  }

  function Prefixed(k: string, ls: seq<(seq<string>, Json)>): (r: seq<(seq<string>, Json)>)
    ensures |r| == |ls| && forall i :: 0 <= i < |ls| ==> r[i] == ([k] + ls[i].0, ls[i].1)
  {
    seq(|ls|, i requires 0 <= i < |ls| => ([k] + ls[i].0, ls[i].1))
  }

  /** The declarations of some leaves under a prefix. */
  function Lines(prefix: seq<string>, ls: seq<(seq<string>, Json)>): (r: seq<string>)
    ensures |r| == |ls| && forall i :: 0 <= i < |ls| ==> r[i] == VarLine(prefix + ls[i].0, ls[i].1)
  {
    seq(|ls|, i requires 0 <= i < |ls| => VarLine(prefix + ls[i].0, ls[i].1))
  }

  /** Following a key path through plain objects. */
  function AtPath(v: Json, path: seq<string>): Option<Json>
    decreases |path|
  {
    if path == [] then Some(v)
    else if v.Obj? then
      match Lookup(v.entries, path[0])
      case None => None
      case Some(x) => AtPath(x, path[1..])
    else None
  }

  /** The sections of `:root`, in order, each with the prefix of its variables. */
  const Sections: seq<(string, string)> := [
    ("colors", "color"), ("spacing", "spacing"), ("typography", "typography"),
    ("borderRadius", "radius"), ("shadows", "shadow"), ("breakpoints", "breakpoint")
  ]

  const CssHeader: seq<string> := [
    "/* Auto-generated from design/tokens.json */",
    "/* Do not edit directly - run npm run tokens to regenerate */",
    ":root {"
  ]

  const CssFooter: seq<string> := [
    "}",
    "",
    "/* Utility Classes */",
    ".text-primary { color: var(--color-semantic-text-primary); }",
    ".text-secondary { color: var(--color-semantic-text-secondary); }",
    ".text-muted { color: var(--color-semantic-text-muted); }",
    ".bg-surface { background-color: var(--color-semantic-surface); }",
    ".bg-background { background-color: var(--color-semantic-background); }",
    ".border-default { border-color: var(--color-semantic-border); }",
    ".rounded-md { border-radius: var(--radius-md); }",
    ".rounded-lg { border-radius: var(--radius-lg); }",
    ".rounded-xl { border-radius: var(--radius-xl); }",
    ".shadow-sm { box-shadow: var(--shadow-sm); }",
    ".shadow-md { box-shadow: var(--shadow-md); }",
    ".shadow-lg { box-shadow: var(--shadow-lg); }"
  ]

  /** A section `Object.entries` throws on: undefined or null. */
  predicate Unlistable(x: Option<Json>) {
    x.None? || x.value.Null?
  }

  /** The variables of the given sections in order; `None` when one of them cannot be listed. */
  function SectionVars(tokens: Json, sections: seq<(string, string)>): (r: Option<seq<string>>)
    ensures r.None? <==> exists i :: 0 <= i < |sections| && Unlistable(Get(tokens, sections[i].0))
  {
    if sections == [] then Some([])
    else
      var x := Get(tokens, sections[0].0);
      var rest := SectionVars(tokens, sections[1..]);
      assert forall i :: 1 <= i < |sections| ==> sections[i] == sections[1..][i - 1];
      if Unlistable(x) || rest.None? then None
      else Some(ToVars(x.value, [sections[0].1]) + rest.value)
  }

  /** The lines of the stylesheet: header, the six sections, closing brace and utility classes. */
  function CssLines(tokens: Json): Option<seq<string>> {
    match SectionVars(tokens, Sections)
    case None => None
    case Some(vars) => Some(CssHeader + vars + CssFooter)
  }

  /** `generateCSS(tokens)`; `None` when it throws. */
  function GenerateCSS(tokens: Json): (r: Option<string>)
    ensures r.Some? <==> forall i :: 0 <= i < |Sections| ==> !Unlistable(Get(tokens, Sections[i].0))
  {
    match CssLines(tokens)
    case None => None
    case Some(lines) => Some(JoinWith(lines, "\n"))
  }

  // ---------------------------------------------------------------------------
  // React Native theme

  /** A "px" string: its `parseInt` after removing the first "px", with "9999px" read as 9999. */
  function PxValue(s: string): (v: Json)
    ensures v.Int? || v.NaN?
  {
    if s == "9999px" then Int(9999)
    else match ParseInt(ReplaceFirst(s, "px", ""))
      case None => NaN
      case Some(n) => Int(n)
  }

  /** `processTokens`: "px" strings become numbers, plain objects are rebuilt key by key, the rest is kept. */
  function ProcessTokens(v: Json): (r: Json)
    ensures v.Obj? ==> r.Obj? && Keys(r.entries) == Keys(v.entries)
    ensures v.Str? && EndsWith(v.s, "px") ==> r.Int? || r.NaN?
    ensures !v.Obj? && !(v.Str? && EndsWith(v.s, "px")) ==> r == v
    decreases v
  {
    match v
    case Str(s) => if EndsWith(s, "px") then PxValue(s) else v
    case Obj(es) => Obj(ProcessEntries(es))
    case _ => v
  }

  function ProcessEntries(es: seq<(string, Json)>): (r: seq<(string, Json)>)
    ensures Keys(r) == Keys(es)
    decreases es
  {
    if es == [] then []
    else
      var (k, x) := es[0];
      assert x < es[0];
      [(k, ProcessTokens(x))] + ProcessEntries(es[1..])
  }

  function Shadow(height: int, opacity: string, radius: int, elevation: int): Json {
    Obj([("shadowColor", Str("#000")),
         ("shadowOffset", Obj([("width", Int(0)), ("height", Int(height))])),
         ("shadowOpacity", Dec(opacity)),
         ("shadowRadius", Int(radius)),
         ("elevation", Int(elevation))])
  }

  /** The native shadow objects that replace the token shadows. */
  const NativeShadows: Json := Obj([
    ("sm", Shadow(1, "0.05", 2, 1)),
    ("md", Shadow(4, "0.1", 6, 3)),
    ("lg", Shadow(10, "0.1", 15, 6)),
    ("xl", Shadow(20, "0.1", 25, 10))
  ])

  /**
   * The theme value `generateRNTheme` serialises: the processed tokens with `shadows` set to
   * the native shadows. Setting a property on a primitive throws (`None`); on an array it is
   * kept out of the serialised text, so the array is what gets written.
   */
  function RNTheme(tokens: Json): (r: Option<Json>)
    ensures tokens.Obj? ==> r.Some? && r.value.Obj?
    ensures tokens.Obj? ==> Lookup(r.value.entries, "shadows") == Some(NativeShadows)
    ensures tokens.Obj? ==> forall k :: k != "shadows" ==>
      Lookup(r.value.entries, k) == Lookup(ProcessTokens(tokens).entries, k)
    ensures r.None? <==> !tokens.Obj? && !tokens.Arr?
  {
    match ProcessTokens(tokens)
    case Obj(es) =>
      AssignKeepsOthers(es, "shadows", NativeShadows);
      Some(Obj(Assign(es, "shadows", NativeShadows)))
    case Arr(xs) => Some(Arr(xs))
    case _ => None
  }

  /** The text of the theme module, given the serialiser `JSON.stringify(·, null, 2)`. */
  function RNThemeText(tokens: Json, stringify: Json -> string): (text: Option<string>)
    ensures text.Some? <==> RNTheme(tokens).Some?
    ensures text.Some? ==> var notice := "// Auto-generated from design/tokens.json\n";
      |notice| <= |text.value| && text.value[..|notice|] == notice
  {
    match RNTheme(tokens)
    case None => None
    case Some(theme) =>
      Some(JoinWith([
        "// Auto-generated from design/tokens.json",
        "// Do not edit directly - run npm run tokens to regenerate",
        "",
        "export const theme = " + stringify(theme) + " as const;",
        "",
        "export type Theme = typeof theme;",
        "export type ColorScale = keyof typeof theme.colors.primary;",
        "export type SpacingScale = keyof typeof theme.spacing;",
        "export type FontSize = keyof typeof theme.typography.fontSize;"
      ], "\n"))
  }

  // ---------------------------------------------------------------------------
  // Properties of the CSS variables

  lemma {:induction false} LinesAppend(prefix: seq<string>, a: seq<(seq<string>, Json)>, b: seq<(seq<string>, Json)>)
    ensures Lines(prefix, a + b) == Lines(prefix, a) + Lines(prefix, b)
  {
  }

  lemma LinesPrefixed(prefix: seq<string>, k: string, ls: seq<(seq<string>, Json)>)
    ensures Lines(prefix, Prefixed(k, ls)) == Lines(prefix + [k], ls)
  {
    forall i | 0 <= i < |ls|
      ensures prefix + ([k] + ls[i].0) == (prefix + [k]) + ls[i].0
    {
    }
  }

  /** `toVars` emits exactly the declarations of the leaves, one line per leaf, in leaf order. */
  lemma {:induction false} EntriesVarsAreLeaves(es: seq<(string, Json)>, prefix: seq<string>)
    ensures EntriesVars(es, prefix) == Lines(prefix, Leaves(es))
    decreases es
  {
    if es != [] {
      var (k, x) := es[0];
      assert x < es[0];
      EntriesVarsAreLeaves(es[1..], prefix);
      if x.Obj? {
        EntriesVarsAreLeaves(x.entries, prefix + [k]);
        LinesPrefixed(prefix, k, Leaves(x.entries));
        LinesAppend(prefix, Prefixed(k, Leaves(x.entries)), Leaves(es[1..]));
      } else {
        LinesAppend(prefix, [([k], x)], Leaves(es[1..]));
      }
    }
  }

  /** Depth first in key order: the leaves of earlier entries come before those of later ones. */
  lemma {:induction false} LeavesAppend(a: seq<(string, Json)>, b: seq<(string, Json)>)
    ensures Leaves(a + b) == Leaves(a) + Leaves(b)
    decreases |a|
  {
    if a != [] {
      var (k, x) := a[0];
      assert x < a[0];
      var head := if x.Obj? then Prefixed(k, Leaves(x.entries)) else [([k], x)];
      assert (a + b)[0] == a[0] && (a + b)[1..] == a[1..] + b;
      assert Leaves(a + b) == head + Leaves(a[1..] + b);
      assert Leaves(a) == head + Leaves(a[1..]);
      LeavesAppend(a[1..], b);
      assert head + (Leaves(a[1..]) + Leaves(b)) == (head + Leaves(a[1..])) + Leaves(b);
    } else {
      assert a + b == b;
    }
  }

  /** Every listed leaf is really there: a non-empty path reaching a value that is not a plain object. */
  lemma {:induction false} LeavesSound(es: seq<(string, Json)>, p: seq<string>, x: Json)
    requires WellFormed(Obj(es))
    requires (p, x) in Leaves(es)
    ensures p != [] && !x.Obj? && AtPath(Obj(es), p) == Some(x)
    decreases es
  {
    var (k, y) := es[0];
    assert y < es[0];
    var head := if y.Obj? then Prefixed(k, Leaves(y.entries)) else [([k], y)];
    assert Leaves(es) == head + Leaves(es[1..]);
    if (p, x) in head {
      LookupAt(es, 0);
      if y.Obj? {
        var i :| 0 <= i < |head| && head[i] == (p, x);
        var q := Leaves(y.entries)[i].0;
        assert p == [k] + q && (q, x) in Leaves(y.entries);
        LeavesSound(y.entries, q, x);
        assert p[1..] == q;
      }
    } else {
      WellFormedTail(es);
      LeavesSound(es[1..], p, x);
      AtPathTail(es, p);
    }
  }

  /** Dropping the first entry of a well-formed object leaves a well-formed object. */
  lemma WellFormedTail(es: seq<(string, Json)>)
    requires WellFormed(Obj(es)) && es != []
    ensures WellFormed(Obj(es[1..]))
  {
    var tail := es[1..];
    forall i | 0 <= i < |tail| ensures WellFormed(tail[i].1) {
      assert tail[i] == es[i + 1];
    }
  }

  /** With distinct keys, a path found below the second entry onwards is found the same way in the whole object. */
  lemma AtPathTail(es: seq<(string, Json)>, p: seq<string>)
    requires DistinctKeys(es) && es != [] && p != [] && AtPath(Obj(es[1..]), p).Some?
    ensures AtPath(Obj(es), p) == AtPath(Obj(es[1..]), p)
  {
    var tail := es[1..];
    var z :| Lookup(tail, p[0]) == Some(z);
    var j :| 0 <= j < |tail| && tail[j] == (p[0], z) && FirstWithKey(tail, p[0], j);
    assert es[j + 1] == tail[j];
    assert Lookup(es, p[0]) == Lookup(tail, p[0]);
  }

  /** Every non-empty path to a value that is not a plain object is listed among the leaves. */
  lemma {:induction false} LeavesComplete(es: seq<(string, Json)>, p: seq<string>, x: Json)
    requires p != [] && !x.Obj? && AtPath(Obj(es), p) == Some(x)
    ensures (p, x) in Leaves(es)
    decreases es
  {
    var (k, y) := es[0];
    assert y < es[0];
    var head := if y.Obj? then Prefixed(k, Leaves(y.entries)) else [([k], y)];
    assert Leaves(es) == head + Leaves(es[1..]);
    if p[0] == k {
      if |p| == 1 {
        assert p == [k];
      } else {
        assert y.Obj?;
        LeavesComplete(y.entries, p[1..], x);
        var i :| 0 <= i < |Leaves(y.entries)| && Leaves(y.entries)[i] == (p[1..], x);
        assert head[i] == ([k] + p[1..], x);
        assert [k] + p[1..] == p;
      }
    } else {
      assert Lookup(es, p[0]) == Lookup(es[1..], p[0]);
      LeavesComplete(es[1..], p, x);
    }
  }

  /**
   * The stylesheet declares every leaf of every section: the value at path `p` under the
   * section's object is declared as `--<prefix>-<p joined by '-'>`.
   */
  lemma {:induction false} SectionVarsDeclareLeaves(tokens: Json, sections: seq<(string, string)>,
                                                    i: nat, p: seq<string>, x: Json)
    requires SectionVars(tokens, sections).Some? && i < |sections|
    requires Get(tokens, sections[i].0).Some? && Get(tokens, sections[i].0).value.Obj?
    requires p != [] && !x.Obj? && AtPath(Get(tokens, sections[i].0).value, p) == Some(x)
    ensures VarLine([sections[i].1] + p, x) in SectionVars(tokens, sections).value
    decreases |sections|
  {
    var vars := SectionVars(tokens, sections).value;
    if i == 0 {
      var section := Get(tokens, sections[0].0).value;
      LeavesComplete(section.entries, p, x);
      var ls := Leaves(section.entries);
      var j :| 0 <= j < |ls| && ls[j] == (p, x);
      assert ToVars(section, [sections[0].1])[j] == VarLine([sections[0].1] + p, x);
      assert vars == ToVars(section, [sections[0].1]) + SectionVars(tokens, sections[1..]).value;
    } else {
      assert sections[i] == sections[1..][i - 1];
      SectionVarsDeclareLeaves(tokens, sections[1..], i - 1, p, x);
    }
  }

  /** So, for instance, `colors.primary["500"]` is declared as `--color-primary-500`. */
  lemma CssDeclaresLeaves(tokens: Json, i: nat, p: seq<string>, x: Json)
    requires CssLines(tokens).Some? && i < |Sections|
    requires Get(tokens, Sections[i].0).Some? && Get(tokens, Sections[i].0).value.Obj?
    requires p != [] && !x.Obj? && AtPath(Get(tokens, Sections[i].0).value, p) == Some(x)
    ensures VarLine([Sections[i].1] + p, x) in CssLines(tokens).value
  {
    SectionVarsDeclareLeaves(tokens, Sections, i, p, x);
  }

  // ---------------------------------------------------------------------------
  // Properties of the theme

  /** The digits are followed directly by "px", so the first "px" is the suffix. */
  lemma PxAfterDigits(d: string)
    requires AllDecimalDigits(d)
    ensures ReplaceFirst(d + "px", "px", "") == d
  {
    var s := d + "px";
    forall j | 0 <= j < |d|
      ensures s[j] != 'p'
    {
      assert s[j] == d[j];
    }
    assert s[|d|..|d| + 2] == "px";
    IndexOfAt(s, "px", |d|);
    assert s[..|d|] == d && s[|d| + 2..] == [];
  }

  lemma NineNines()
    ensures NatToString(9999) == "9999"
  {
    assert NatToString(9) == "9";
    assert NatToString(99) == NatToString(9) + "9";
    assert NatToString(999) == NatToString(99) + "9";
  }

  /** A whole number of pixels, printed with "px", comes back as that number. */
  lemma PxRoundTrip(n: nat)
    ensures ProcessTokens(Str(NatToString(n) + "px")) == Int(n)
  {
    var d := NatToString(n);
    assert (d + "px")[|d + "px"| - 2..] == "px";
    PrintedPxValue(n);
  }

  lemma PrintedPxValue(n: nat)
    ensures PxValue(NatToString(n) + "px") == Int(n)
  {
    var d := NatToString(n);
    if d + "px" == "9999px" {
      assert d == (d + "px")[..|d|] == "9999";
      NineNines();
      NatToStringInjective(n, 9999);
    } else {
      PxAfterDigits(d);
      ParseIntOfPrinted(n, "");
      assert d + "" == d;
    }
  }

  /** The "9999px" special case returns what `parseInt` would have returned anyway. */
  lemma SpecialCaseAgrees()
    ensures ParseInt(ReplaceFirst("9999px", "px", "")) == Some(9999)
  {
    var d := NatToString(9999);
    NineNines();
    assert d + "px" == "9999px";
    PxAfterDigits(d);
    ParseIntOfPrinted(9999, "");
    assert d + "" == d;
  }

  /** A fractional pixel size is truncated to its whole part. */
  lemma PxFractionTruncated()
    ensures PxValue("1.5px") == Int(1)
  {
    var s := "1.5px";
    assert StartsWith(s[3..], "px");
    assert s[0] != 'p' && s[1] != 'p' && s[2] != 'p';
    assert IndexOf(s, "px") == Some(3);
    assert ReplaceFirst(s, "px", "") == "1.5";
    assert NatToString(1) + ".5" == "1.5";
    ParseIntOfPrinted(1, ".5");
  }

  /** A bare "px" has no digits, so it becomes NaN. */
  lemma PxAloneIsNaN()
    ensures PxValue("px") == NaN
  {
    assert IndexOf("px", "px") == Some(0);
    assert ReplaceFirst("px", "px", "") == "";
  }

  /** Each processed entry is the processed value under the same key. */
  lemma {:induction false} ProcessEntriesPointwise(es: seq<(string, Json)>, i: nat)
    requires i < |es|
    ensures i < |ProcessEntries(es)| && ProcessEntries(es)[i] == (es[i].0, ProcessTokens(es[i].1))
    decreases i
  {
    if i > 0 {
      ProcessEntriesPointwise(es[1..], i - 1);
    }
  }

  /** Processing twice is processing once: numbers stay numbers and the rest is already final. */
  lemma {:induction false} ProcessIdempotent(v: Json)
    ensures ProcessTokens(ProcessTokens(v)) == ProcessTokens(v)
    decreases v
  {
    if v.Obj? {
      var es := v.entries;
      var once := ProcessEntries(es);
      var twice := ProcessEntries(once);
      forall i | 0 <= i < |es|
        ensures twice[i] == once[i]
      {
        ProcessEntriesPointwise(es, i);
        ProcessEntriesPointwise(once, i);
        assert es[i].1 < v;
        ProcessIdempotent(es[i].1);
      }
      assert twice == once;
    }
  }

  /** In the theme every key but `shadows` holds the processed token value under that key. */
  lemma ThemeKeepsProcessedValues(es: seq<(string, Json)>, i: nat)
    requires DistinctKeys(es) && i < |es| && es[i].0 != "shadows"
    ensures Lookup(RNTheme(Obj(es)).value.entries, es[i].0) == Some(ProcessTokens(es[i].1))
  {
    var once := ProcessEntries(es);
    ProcessEntriesPointwise(es, i);
    assert DistinctKeys(once) by {
      forall a, b | 0 <= a < b < |once| ensures once[a].0 != once[b].0 {
        assert once[a].0 == Keys(once)[a] == Keys(es)[a];
        assert once[b].0 == Keys(once)[b] == Keys(es)[b];
      }
    }
    LookupAt(once, i);
    assert ProcessTokens(Obj(es)) == Obj(once);
    assert once[i] == (es[i].0, ProcessTokens(es[i].1));
  }
}
