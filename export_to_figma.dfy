/**
 * The Figma export script: the design tokens' colours and type sizes become named Figma styles,
 * and two fixed catalogues (components and screens) are added beside them. Dictionaries are
 * ordered entry lists, as in `JsonValue`; a thrown `TypeError` is an `Err`.
 */
module ExportToFigma {
  import opened Wrappers
  import opened JsText
  import opened JsonValue

  const TypeError := "TypeError"

  /** `typeof v === 'object' && v !== null`: objects and arrays. */
  predicate IsObject(v: Json) {
    v.Obj? || v.Arr?
  }

  /** `undefined` or `null`: reading a property of it, or listing its entries, throws. */
  predicate Nullish(v: Option<Json>) {
    v.None? || v.value.Null?
  }

  // ---------------------------------------------------------------------------
  // Filling a dictionary entry by entry

  /**
   * `result[k] = f(k, v)` for each entry `(k, v)` in turn, starting from `d`: the inner
   * `forEach` of scripts/export-to-figma.js lines 48-54.
   */
  function PutEach<V, W(==)>(d: seq<(string, W)>, es: seq<(string, V)>, f: (string, V) -> W): seq<(string, W)>
    decreases |es|
  {
    if es == [] then d else PutEach(Assign(d, es[0].0, f(es[0].0, es[0].1)), es[1..], f)
  }

  /** The entries with each value replaced by `f(key, value)`, keys and order unchanged. */
  function MapEntries<V, W>(es: seq<(string, V)>, f: (string, V) -> W): (r: seq<(string, W)>)
    ensures |r| == |es|
    decreases |es|
  {
    if es == [] then [] else [(es[0].0, f(es[0].0, es[0].1))] + MapEntries(es[1..], f)
  }

  /** Entry `i` of the mapped entries is entry `i` of `es` with its value mapped. */
  lemma {:induction false} MapEntriesAt<V, W>(es: seq<(string, V)>, f: (string, V) -> W, i: nat)
    requires i < |es|
    ensures MapEntries(es, f)[i] == (es[i].0, f(es[i].0, es[i].1))
    decreases i
  {
    if i > 0 {
      MapEntriesAt(es[1..], f, i - 1);
    }
  }

  /** No key of `d` is a key of `es`. */
  predicate KeysApart<V, W>(d: seq<(string, W)>, es: seq<(string, V)>) {
    forall i, j :: 0 <= i < |d| && 0 <= j < |es| ==> d[i].0 != es[j].0
  }

  lemma DistinctTail<V>(es: seq<(string, V)>)
    requires DistinctKeys(es) && es != []
    ensures DistinctKeys(es[1..])
  {
    forall i, j | 0 <= i < j < |es| - 1
      ensures es[1..][i].0 != es[1..][j].0
    {
      assert es[1..][i] == es[i + 1] && es[1..][j] == es[j + 1];
    }
  }

  /** Appending the first entry of `es` to `d` keeps `d` apart from the rest of `es`. */
  lemma ApartAfterFirst<V, W>(d: seq<(string, W)>, es: seq<(string, V)>, x: W)
    requires DistinctKeys(es) && es != [] && KeysApart(d, es)
    ensures KeysApart(d + [(es[0].0, x)], es[1..])
  {
    var next := d + [(es[0].0, x)];
    forall i, j | 0 <= i < |next| && 0 <= j < |es| - 1
      ensures next[i].0 != es[1..][j].0
    {
      assert es[1..][j] == es[j + 1];
      if i < |d| {
        assert next[i] == d[i];
      }
    }
  }

  /** A first key not yet in `d` is appended. */
  lemma PutEachFirst<V, W>(d: seq<(string, W)>, es: seq<(string, V)>, f: (string, V) -> W)
    requires es != [] && KeysApart(d, es)
    ensures PutEach(d, es, f) == PutEach(d + [(es[0].0, f(es[0].0, es[0].1))], es[1..], f)
  {
    assert Lookup(d, es[0].0).None?;
    AssignAppends(d, es[0].0, f(es[0].0, es[0].1));
  }

  /** `d` followed by the mapped entries is `d` with the first mapped entry, then the rest. */
  lemma MapEntriesAfter<V, W>(d: seq<(string, W)>, es: seq<(string, V)>, f: (string, V) -> W)
    requires es != []
    ensures d + MapEntries(es, f) == d + [(es[0].0, f(es[0].0, es[0].1))] + MapEntries(es[1..], f)
  {
    var x, m := (es[0].0, f(es[0].0, es[0].1)), MapEntries(es[1..], f);
    assert MapEntries(es, f) == [x] + m;
    assert (d + [x]) + m == d + ([x] + m);
  }

  /** With distinct keys none of which is in `d` yet, every assignment appends. */
  lemma {:induction false} PutEachAppends<V, W>(d: seq<(string, W)>, es: seq<(string, V)>, f: (string, V) -> W)
    requires DistinctKeys(es) && KeysApart(d, es)
    ensures PutEach(d, es, f) == d + MapEntries(es, f)
    decreases |es|
  {
    if es != [] {
      var x := (es[0].0, f(es[0].0, es[0].1));
      PutEachFirst(d, es, f);
      ApartAfterFirst(d, es, x.1);
      DistinctTail(es);
      PutEachAppends(d + [x], es[1..], f);
      MapEntriesAfter(d, es, f);
    }
  }

  /** Filling an empty dictionary from distinct keys maps each entry in place. */
  lemma PutEachFresh<V, W>(es: seq<(string, V)>, f: (string, V) -> W)
    requires DistinctKeys(es)
    ensures PutEach([], es, f) == MapEntries(es, f)
    ensures Keys(PutEach([], es, f)) == Keys(es)
    ensures forall i :: 0 <= i < |es| ==> PutEach([], es, f)[i] == (es[i].0, f(es[i].0, es[i].1))
  {
    PutEachAppends([], es, f);
    assert [] + MapEntries(es, f) == MapEntries(es, f);
    forall i | 0 <= i < |es|
      ensures MapEntries(es, f)[i] == (es[i].0, f(es[i].0, es[i].1))
    {
      MapEntriesAt(es, f, i);
    }
  }

  /** `Object.entries` of a parsed value never repeats a key. */
  lemma EntriesDistinct(v: Json)
    requires WellFormed(v)
    ensures DistinctKeys(Entries(v))
  {
    var es := Entries(v);
    if v.Arr? || v.Str? {
      forall i, j | 0 <= i < j < |es|
        ensures es[i].0 != es[j].0
      {
        if es[i].0 == es[j].0 {
          NatToStringInjective(i, j);
        }
      }
    }
  }

  // ---------------------------------------------------------------------------
  // Colours

  datatype ColorStyle = ColorStyle(name: string, value: Json, figmaStyle: string)

  type Shades = seq<(string, ColorStyle)>
  type Colors = seq<(string, Shades)>

  /** The style object the inner loop stores for a shade of `group`. */
  function ShadeStyleOf(group: string): (string, Json) -> ColorStyle {
    (shade, hex) => ColorStyle(group + "/" + shade, hex, "color-" + group + "-" + shade)
  }

  /** The inner dictionary built for `group` from its shade entries. */
  function ShadesOf(group: string, shades: seq<(string, Json)>): Shades {
    PutEach([], shades, ShadeStyleOf(group))
  }

  /**
   * The outer loop from `d` on (scripts/export-to-figma.js lines 45-56): a group whose value
   * is an object gets its shade dictionary.
   */
  function PutGroups(d: Colors, groups: seq<(string, Json)>): Colors
    decreases |groups|
  {
    if groups == [] then d
    else
      var (name, shades) := groups[0];
      PutGroups(if IsObject(shades) then Assign(d, name, ShadesOf(name, Entries(shades))) else d, groups[1..])
  }

  /** `generateColors(colors)`: `Object.entries` throws on `undefined` and `null`. */
  function ColorsFor(colors: Option<Json>): (r: Result<Colors>)
    ensures r.Err? <==> Nullish(colors)
    ensures colors.Some? && WellFormed(colors.value) && !colors.value.Null? ==> r == Ok(KeptGroups(Entries(colors.value)))
  {
    if Nullish(colors) then Err(TypeError)
    else
      if WellFormed(colors.value) then
        EntriesDistinct(colors.value);
        PutGroupsAppends([], Entries(colors.value));
        assert [] + KeptGroups(Entries(colors.value)) == KeptGroups(Entries(colors.value));
        Ok(PutGroups([], Entries(colors.value)))
      else Ok(PutGroups([], Entries(colors.value)))
  }

  /** The kept groups, in order: a reference definition by filtering. */
  function KeptGroups(groups: seq<(string, Json)>): (kept: Colors)
    ensures |kept| <= |groups|
    ensures (forall i :: 0 <= i < |groups| ==> IsObject(groups[i].1)) ==> |kept| == |groups|
    ensures (forall i :: 0 <= i < |groups| ==> !IsObject(groups[i].1)) ==> kept == []
    decreases |groups|
  {
    if groups == [] then []
    else
      var (name, shades) := groups[0];
      (if IsObject(shades) then [(name, ShadesOf(name, Entries(shades)))] else []) + KeptGroups(groups[1..])
  }

  /** `generateColors` in the script's own form: a loop over the groups filling `result`. */
  method GenerateColors(colors: Option<Json>) returns (r: Result<Colors>)
    ensures r == ColorsFor(colors)
  {
    if colors.None? || colors.value.Null? {
      return Err(TypeError);
    }
    var groups := Entries(colors.value);
    var result: Colors := [];
    for i := 0 to |groups|
      invariant PutGroups(result, groups[i..]) == PutGroups([], groups)
    {
      assert groups[i..][1..] == groups[i + 1..];
      var name, shades := groups[i].0, groups[i].1;
      if shades.Obj? || shades.Arr? {
        var styles := GenerateShades(name, Entries(shades));
        result := Assign(result, name, styles);
      }
    }
    assert groups[|groups|..] == [];
    return Ok(result);
  }

  /** The inner loop: one style per shade, stored under the shade's key. */
  method GenerateShades(group: string, shades: seq<(string, Json)>) returns (styles: Shades)
    ensures styles == ShadesOf(group, shades)
  {
    styles := [];
    for i := 0 to |shades|
      invariant PutEach(styles, shades[i..], ShadeStyleOf(group)) == ShadesOf(group, shades)
    {
      assert shades[i..][1..] == shades[i + 1..];
      var shade, hex := shades[i].0, shades[i].1;
      styles := Assign(styles, shade, ColorStyle(group + "/" + shade, hex, "color-" + group + "-" + shade));
    }
    assert shades[|shades|..] == [];
  }

  /**
   * The shade dictionary of a group has exactly the group's shade keys, in order; each holds
   * the name "group/shade", the original value unchanged and the style name "color-group-shade".
   */
  lemma ShadesMapped(group: string, shades: seq<(string, Json)>)
    requires DistinctKeys(shades)
    ensures ShadesOf(group, shades) == MapEntries(shades, ShadeStyleOf(group))
    ensures Keys(ShadesOf(group, shades)) == Keys(shades)
    ensures forall i :: 0 <= i < |shades| ==>
      ShadesOf(group, shades)[i] ==
        (shades[i].0, ColorStyle(group + "/" + shades[i].0, shades[i].1, "color-" + group + "-" + shades[i].0))
  {
    PutEachFresh(shades, ShadeStyleOf(group));
  }

  lemma ApartTail<V, W>(d: seq<(string, W)>, es: seq<(string, V)>)
    requires KeysApart(d, es) && es != []
    ensures KeysApart(d, es[1..])
  {
    forall i, j | 0 <= i < |d| && 0 <= j < |es| - 1
      ensures d[i].0 != es[1..][j].0
    {
      assert es[1..][j] == es[j + 1];
    }
  }

  /** With distinct keys, the first key does not occur again. */
  lemma FirstKeyNotInTail<V>(es: seq<(string, V)>)
    requires DistinctKeys(es) && es != []
    ensures Lookup(es[1..], es[0].0).None?
  {
    forall i | 0 <= i < |es| - 1
      ensures es[1..][i].0 != es[0].0
    {
      assert es[1..][i] == es[i + 1];
    }
  }

  /** The dictionary after the first group: its shades appended when its value is an object. */
  function AfterFirstGroup(d: Colors, group: (string, Json)): Colors {
    if IsObject(group.1) then d + [(group.0, ShadesOf(group.0, Entries(group.1)))] else d
  }

  lemma PutGroupsFirst(d: Colors, groups: seq<(string, Json)>)
    requires groups != [] && KeysApart(d, groups)
    ensures PutGroups(d, groups) == PutGroups(AfterFirstGroup(d, groups[0]), groups[1..])
  {
    var name, shades := groups[0].0, groups[0].1;
    if IsObject(shades) {
      assert Lookup(d, name).None?;
      AssignAppends(d, name, ShadesOf(name, Entries(shades)));
    }
  }

  lemma KeptGroupsAfter(d: Colors, groups: seq<(string, Json)>)
    requires groups != []
    ensures d + KeptGroups(groups) == AfterFirstGroup(d, groups[0]) + KeptGroups(groups[1..])
  {
    var name, shades := groups[0].0, groups[0].1;
    var rest := KeptGroups(groups[1..]);
    if IsObject(shades) {
      var x := (name, ShadesOf(name, Entries(shades)));
      assert KeptGroups(groups) == [x] + rest;
      assert (d + [x]) + rest == d + ([x] + rest);
    } else {
      assert KeptGroups(groups) == [] + rest;
    }
  }

  /** With distinct group names none of which is in `d` yet, the loop appends the kept groups. */
  lemma {:induction false} PutGroupsAppends(d: Colors, groups: seq<(string, Json)>)
    requires DistinctKeys(groups) && KeysApart(d, groups)
    ensures PutGroups(d, groups) == d + KeptGroups(groups)
    decreases |groups|
  {
    if groups != [] {
      var name, shades := groups[0].0, groups[0].1;
      PutGroupsFirst(d, groups);
      if IsObject(shades) {
        ApartAfterFirst(d, groups, ShadesOf(name, Entries(shades)));
      } else {
        ApartTail(d, groups);
      }
      DistinctTail(groups);
      PutGroupsAppends(AfterFirstGroup(d, groups[0]), groups[1..]);
      KeptGroupsAfter(d, groups);
    }
  }

  /** What looking up `name` among the kept groups gives, by the table's own entry for `name`. */
  function KeptLookup(entry: Option<Json>, name: string): Option<Shades> {
    match entry
    case Some(v) => if IsObject(v) then Some(ShadesOf(name, Entries(v))) else None
    case None => None
  }

  /** The group `name` is in the kept groups exactly when it is a group whose value is an object. */
  lemma {:induction false} KeptGroupsLookup(groups: seq<(string, Json)>, name: string)
    requires DistinctKeys(groups)
    ensures Lookup(KeptGroups(groups), name) == KeptLookup(Lookup(groups, name), name)
    decreases |groups|
  {
    if groups != [] {
      var head, rest := groups[0], groups[1..];
      DistinctTail(groups);
      KeptGroupsLookup(rest, name);
      assert groups == [head] + rest;
      LookupCons(head, rest);
      if IsObject(head.1) {
        LookupCons((head.0, ShadesOf(head.0, Entries(head.1))), KeptGroups(rest));
      } else {
        assert KeptGroups(groups) == KeptGroups(rest);
      }
      if head.0 == name {
        FirstKeyNotInTail(groups);
      }
    }
  }

  /**
   * On a parsed colour table, `generateColors` keeps exactly the groups whose value is a
   * non-null object, in order, and maps each to the dictionary of its shades.
   */
  lemma GeneratedColors(colors: Json)
    requires WellFormed(colors) && !colors.Null?
    ensures ColorsFor(Some(colors)) == Ok(KeptGroups(Entries(colors)))
    ensures forall name :: Lookup(ColorsFor(Some(colors)).value, name) == KeptLookup(Lookup(Entries(colors), name), name)
  {
    var groups := Entries(colors);
    EntriesDistinct(colors);
    PutGroupsAppends([], groups);
    assert [] + KeptGroups(groups) == KeptGroups(groups);
    forall name
      ensures Lookup(KeptGroups(groups), name) == KeptLookup(Lookup(groups, name), name)
    {
      KeptGroupsLookup(groups, name);
    }
  }

  // ---------------------------------------------------------------------------
  // Typography

  /** `{ name, fontSize, fontFamily, figmaStyle }`; `None` stands for NaN and for undefined. */
  datatype TextStyleEntry = TextStyleEntry(name: string, fontSize: Option<int>, fontFamily: Option<Json>, figmaStyle: string)

  type Typography = seq<(string, TextStyleEntry)>

  /** The entry stored for one size key, with the primary family read in the loop. */
  function SizeStyleOf(primary: Option<Json>): (string, Json) -> TextStyleEntry {
    (size, value) => TextStyleEntry("text-" + size, ParseInt(JsString(value)), primary, "typography-" + size)
  }

  /** `typography.fontFamily.primary`, when `typography.fontFamily` is neither undefined nor null. */
  function Primary(family: Option<Json>): Option<Json> {
    if Nullish(family) then None else Get(family.value, "primary")
  }

  /**
   * `generateTypography(typography)`. Reading `fontSize` of undefined or null throws, listing
   * the entries of an undefined or null `fontSize` throws, and reading `primary` of an undefined
   * or null `fontFamily` throws, but only once the loop runs, so only when there is a size.
   */
  function TypographyFor(typography: Option<Json>): (r: Result<Typography>)
    ensures r.Err? <==>
      Nullish(typography) ||
      Nullish(Get(typography.value, "fontSize")) ||
      (Entries(Get(typography.value, "fontSize").value) != [] && Nullish(Get(typography.value, "fontFamily")))
  {
    if Nullish(typography) then Err(TypeError)
    else
      var sizes := Get(typography.value, "fontSize");
      var family := Get(typography.value, "fontFamily");
      if Nullish(sizes) then Err(TypeError)
      else if Entries(sizes.value) != [] && Nullish(family) then Err(TypeError)
      else Ok(PutEach([], Entries(sizes.value), SizeStyleOf(Primary(family))))
  }

  /** `generateTypography` in the script's own form: the family is read in every iteration. */
  method GenerateTypography(typography: Option<Json>) returns (r: Result<Typography>)
    ensures r == TypographyFor(typography)
  {
    if typography.None? || typography.value.Null? {
      return Err(TypeError);
    }
    var sizes := Get(typography.value, "fontSize");
    if sizes.None? || sizes.value.Null? {
      return Err(TypeError);
    }
    var es := Entries(sizes.value);
    ghost var primary := Primary(Get(typography.value, "fontFamily"));
    var result: Typography := [];
    for i := 0 to |es|
      invariant PutEach(result, es[i..], SizeStyleOf(primary)) == PutEach([], es, SizeStyleOf(primary))
      invariant i > 0 ==> !Nullish(Get(typography.value, "fontFamily"))
    {
      assert es[i..][1..] == es[i + 1..];
      var size, value := es[i].0, es[i].1;
      var family := Get(typography.value, "fontFamily");
      if family.None? || family.value.Null? {
        return Err(TypeError);
      }
      var entry := TextStyleEntry("text-" + size, ParseInt(JsString(value)), Get(family.value, "primary"), "typography-" + size);
      assert entry == SizeStyleOf(primary)(size, value);
      result := Assign(result, size, entry);
    }
    assert es[|es|..] == [];
    return Ok(result);
  }

  /** `generateTypography` throws exactly in the three cases above. */
  lemma TypographyFails(typography: Option<Json>)
    ensures TypographyFor(typography).Err? <==>
      Nullish(typography) ||
      Nullish(Get(typography.value, "fontSize")) ||
      (Entries(Get(typography.value, "fontSize").value) != [] && Nullish(Get(typography.value, "fontFamily")))
  {
  }

  /**
   * On parsed tokens, the typography has one entry per `fontSize` key, in order, named
   * "text-" + key, with `parseInt` of the value, the primary family and "typography-" + key.
   */
  lemma TypographyEntries(typography: Json)
    requires WellFormed(typography)
    requires TypographyFor(Some(typography)).Ok?
    ensures var sizes := Entries(Get(typography, "fontSize").value);
      var primary := Primary(Get(typography, "fontFamily"));
      var r := TypographyFor(Some(typography)).value;
      Keys(r) == Keys(sizes) &&
      forall i :: 0 <= i < |sizes| ==>
        r[i].1 == TextStyleEntry("text-" + sizes[i].0, ParseInt(JsString(sizes[i].1)), primary, "typography-" + sizes[i].0)
  {
    var sizes := Get(typography, "fontSize").value;
    assert WellFormed(sizes) by {
      var es := typography.entries;
      var j :| 0 <= j < |es| && es[j] == ("fontSize", sizes);
    }
    EntriesDistinct(sizes);
    var f := SizeStyleOf(Primary(Get(typography, "fontFamily")));
    PutEachFresh(Entries(sizes), f);
  }

  /** A "28px" or 28 font size becomes the number 28. */
  lemma SizeParsed(primary: Option<Json>, size: string, n: nat)
    ensures SizeStyleOf(primary)(size, Str(NatToString(n) + "px")).fontSize == Some(n)
  {
    ParseIntOfPrinted(n, "px");
    assert JsString(Str(NatToString(n) + "px")) == NatToString(n) + "px";
  }

  /** A numeric size keeps its value. */
  lemma SizeNumberParsed(primary: Option<Json>, size: string, n: nat)
    ensures SizeStyleOf(primary)(size, Int(n)).fontSize == Some(n)
  {
    ParseIntOfPrinted(n, "");
    assert JsString(Int(n)) == NatToString(n) + "";
  }

  /** A size text that starts with neither a blank, a sign nor a digit becomes NaN. */
  lemma SizeNotANumber(primary: Option<Json>, size: string, text: string)
    requires text != [] && !IsJsWhitespace(text[0]) && !IsDecimalDigit(text[0]) && text[0] != '-' && text[0] != '+'
    ensures SizeStyleOf(primary)(size, Str(text)).fontSize.None?
  {
    assert TrimStart(text) == text;
  }

  // ---------------------------------------------------------------------------
  // Fixed catalogues

  /** A component description; a list the script does not give is `None`. */
  datatype Component = Component(
    name: string,
    variants: Option<seq<string>>,
    sizes: Option<seq<string>>,
    tabs: Option<seq<string>>,
    figmaComponent: string)

  /** `generateComponents()`: four components, each under its own name, each a Figma component of that name. */
  function GenerateComponents(): (cs: seq<(string, Component)>)
    ensures Keys(cs) == ["Button", "Card", "Header", "TabBar"]
    ensures forall i :: 0 <= i < |cs| ==> cs[i].1.name == cs[i].0 && StartsWith(cs[i].1.figmaComponent, cs[i].0 + "/")
    ensures forall i :: 0 <= i < |cs| ==> cs[i].1.variants.Some? != cs[i].1.tabs.Some?
  {
    [ ("Button", Component("Button", Some(["Primary", "Secondary", "Ghost"]), Some(["sm", "md", "lg"]), None, "Button/Primary")),
      ("Card", Component("Card", Some(["Default", "Elevated"]), None, None, "Card/Default")),
      ("Header", Component("Header", Some(["Default", "WithBack"]), None, None, "Header/Default")),
      ("TabBar", Component("TabBar", None, None, Some(["Home", "Topics", "Exam", "Store", "More"]), "TabBar/Default")) ]
  }

  datatype ScreenSpec = ScreenSpec(name: string, width: nat, height: nat, components: seq<string>)

  /** `generateScreens()`: six phone-sized screens with distinct names, each listing four components or fewer. */
  function GenerateScreens(): (ss: seq<ScreenSpec>)
    ensures |ss| == 6
    ensures forall i :: 0 <= i < |ss| ==> ss[i].width == 375 && ss[i].height == 812 && 3 <= |ss[i].components| <= 4
    ensures forall i, j :: 0 <= i < j < |ss| ==> ss[i].name != ss[j].name
  {
    [ ScreenSpec("Login", 375, 812, ["Logo", "LoginForm", "SocialButtons"]),
      ScreenSpec("Home", 375, 812, ["Header", "ProgressCard", "ActionGrid", "TabBar"]),
      ScreenSpec("Topics", 375, 812, ["Header", "SearchBar", "ModuleList", "TabBar"]),
      ScreenSpec("Lesson", 375, 812, ["Header", "VideoPlayer", "TabNavigation", "Content"]),
      ScreenSpec("Exam", 375, 812, ["Timer", "QuestionCard", "AnswerOptions", "Navigation"]),
      ScreenSpec("Store", 375, 812, ["Header", "ProductGrid", "PaymentMethods", "TabBar"]) ]
  }

  // ---------------------------------------------------------------------------
  // The export document

  datatype AppInfo = AppInfo(name: string, version: string, description: string)

  const App := AppInfo("DDA.az Mobile Learning App", "1.0.0", "Sürücülük vəsiqəsi üçün hazırlıq tətbiqi")

  /** Spacing, radii and shadows are passed through from the tokens as they are. */
  datatype DesignSystem = DesignSystem(
    colors: Colors,
    typography: Typography,
    spacing: Option<Json>,
    borderRadius: Option<Json>,
    shadows: Option<Json>)

  datatype FigmaExport = FigmaExport(
    timestamp: string,
    app: AppInfo,
    designSystem: DesignSystem,
    components: seq<(string, Component)>,
    screens: seq<ScreenSpec>)

  /**
   * The `figmaExport` object for parsed tokens and the time it was built. The colours are
   * generated before the typography, so a failure of either throws; nothing else can fail.
   */
  method BuildExport(tokens: Json, timestamp: string) returns (r: Result<FigmaExport>)
    ensures r.Ok? <==> !tokens.Null? && ColorsFor(Get(tokens, "colors")).Ok? && TypographyFor(Get(tokens, "typography")).Ok?
    ensures r.Ok? ==> r.value == FigmaExport(
      timestamp, App,
      DesignSystem(ColorsFor(Get(tokens, "colors")).value, TypographyFor(Get(tokens, "typography")).value,
        Get(tokens, "spacing"), Get(tokens, "borderRadius"), Get(tokens, "shadows")),
      GenerateComponents(), GenerateScreens())
  {
    if tokens.Null? {
      return Err(TypeError);
    }
    var colors := GenerateColors(Get(tokens, "colors"));
    if colors.Err? {
      return Err(colors.message);
    }
    var typography := GenerateTypography(Get(tokens, "typography"));
    if typography.Err? {
      return Err(typography.message);
    }
    var system := DesignSystem(colors.value, typography.value, Get(tokens, "spacing"), Get(tokens, "borderRadius"), Get(tokens, "shadows"));
    return Ok(FigmaExport(timestamp, App, system, GenerateComponents(), GenerateScreens()));
  }
}
