/**
 * The design-file validator: three checks (token sections, asset manifest, components used by
 * screens) that print one error per problem and raise a shared `hasErrors` flag; the run fails
 * exactly when some error was reported. A check that throws (unreadable file, invalid JSON,
 * a property read on `null`) reports one more error and stops that check only.
 */
module Validate {
  import opened Wrappers
  import opened JsText
  import opened JsonValue

  datatype Check = TokensCheck | AssetsCheck | ConsistencyCheck

  /** One printed error. */
  datatype Issue =
    | MissingSection(section: string)
    | MissingField(list: string, index: nat, field: string)
    | MissingPath(index: nat, sizeIndex: nat)
    | UnknownComponent(line: nat, component: string, screen: Option<string>)
    | Failed(check: Check)

  const RequiredSections: seq<string> := ["colors", "spacing", "typography", "borderRadius", "shadows", "breakpoints"]
  const RequiredFields: seq<string> := ["name", "category", "group", "format", "sizes"]

  // ---------------------------------------------------------------------------
  // Token sections

  /** The sections that are missing or falsy, in order. */
  function MissingSections(tokens: Json, sections: seq<string>): (r: seq<Issue>)
    ensures |r| <= |sections|
  {
    if sections == [] then []
    else
      var last := sections[|sections| - 1];
      MissingSections(tokens, sections[..|sections| - 1]) + (if Truthy(Get(tokens, last)) then [] else [MissingSection(last)])
  }

  /** `validateTokens`: unreadable tokens, or `null` ones, make the check throw. */
  function TokenIssues(tokens: Option<Json>): seq<Issue> {
    match tokens
    case None => [Failed(TokensCheck)]
    case Some(t) => if t.Null? then [Failed(TokensCheck)] else MissingSections(t, RequiredSections)
  }

  // ---------------------------------------------------------------------------
  // Asset manifest

  /** What a check has printed so far, and whether it has thrown. */
  datatype Report = Report(issues: seq<Issue>, threw: bool)

  /** Running `next` after `r`: nothing more happens once something has thrown. */
  function Then(r: Report, next: Report): (s: Report)
    ensures r.threw ==> s == r
    ensures !r.threw ==> s.issues == r.issues + next.issues && s.threw == next.threw
  {
    if r.threw then r else Report(r.issues + next.issues, next.threw)
  }

  /** The required fields `item` lacks or has falsy, in order. */
  function FieldIssues(list: string, index: nat, item: Json, fields: seq<string>): (r: seq<Issue>)
    ensures |r| <= |fields|
    ensures forall x :: x in r ==> x.MissingField? && x.list == list && x.index == index
  {
    if fields == [] then []
    else
      var last := fields[|fields| - 1];
      FieldIssues(list, index, item, fields[..|fields| - 1]) + (if Truthy(Get(item, last)) then [] else [MissingField(list, index, last)])
  }

  /** One size entry of icon `index`: reading `path` of `null` throws. */
  function SizeStep(index: nat, sizeIndex: nat, size: Json): Report {
    if size.Null? then Report([], true)
    else if Truthy(Get(size, "path")) then Report([], false)
    else Report([MissingPath(index, sizeIndex)], false)
  }

  function SizesReport(index: nat, sizes: seq<Json>): Report {
    if sizes == [] then Report([], false)
    else Then(SizesReport(index, sizes[..|sizes| - 1]), SizeStep(index, |sizes| - 1, sizes[|sizes| - 1]))
  }

  /** The sizes of an icon are checked only when they form an array. */
  predicate HasSizeArray(item: Json) {
    Truthy(Get(item, "sizes")) && Get(item, "sizes").value.Arr?
  }

  /** One icon or image: its required fields, then (for icons only) the paths of its sizes. */
  function ItemReport(list: string, fields: seq<string>, index: nat, item: Json): Report {
    if item.Null? then Report([], true)
    else
      var missing := Report(FieldIssues(list, index, item, fields), false);
      if list == "icons" && HasSizeArray(item) then
        Then(missing, SizesReport(index, Get(item, "sizes").value.items))
      else missing
  }

  function ListReport(list: string, fields: seq<string>, items: seq<Json>): Report {
    if items == [] then Report([], false)
    else Then(ListReport(list, fields, items[..|items| - 1]), ItemReport(list, fields, |items| - 1, items[|items| - 1]))
  }

  /** A list present in the manifest: skipped when falsy, checked when an array, throws otherwise. */
  function SectionReport(list: string, fields: seq<string>, value: Option<Json>): Report {
    if !Truthy(value) then Report([], false)
    else if value.value.Arr? then ListReport(list, fields, value.value.items)
    else Report([], true)
  }

  /** `validateAssets`: icons, then images; a throw adds one error and ends the check. */
  function AssetIssues(assets: Option<Json>): seq<Issue> {
    match assets
    case None => [Failed(AssetsCheck)]
    case Some(a) =>
      if a.Null? then [Failed(AssetsCheck)]
      else
        var r := Then(SectionReport("icons", RequiredFields, Get(a, "icons")),
                      SectionReport("images", RequiredFields, Get(a, "images")));
        if r.threw then r.issues + [Failed(AssetsCheck)] else r.issues
  }

  // ---------------------------------------------------------------------------
  // CSV files and component consistency

  /** A parsed CSV row: header to field. */
  type Row = map<string, string>

  /** `values[i] || ''`: a missing field reads as the empty string. */
  function FieldAt(values: seq<string>, i: nat): string {
    if i < |values| then values[i] else ""
  }

  /** The row object built header by header; a repeated header keeps its last column. */
  function RowOf(headers: seq<string>, values: seq<string>): (r: Row)
    ensures r.Keys == set h | h in headers
  {
    if headers == [] then map[]
    else
      var n := |headers| - 1;
      var r := RowOf(headers[..n], values)[headers[n] := FieldAt(values, n)];
      assert forall h :: h in headers <==> h in headers[..n] || h == headers[n];
      r
  }

  /** `parseCSV`: the first line of the trimmed text names the columns, every other line is a row. */
  function ParseCSV(csv: string): (rows: seq<Row>)
    ensures |rows| == Occurrences(Trim(csv), '\n')
  {
    var lines := Split(Trim(csv), '\n');
    var headers := Split(lines[0], ',');
    seq(|lines| - 1, i requires 0 <= i < |lines| - 1 => RowOf(headers, Split(lines[i + 1], ',')))
  }

  /** `row.k`, undefined when the row has no such column. */
  function Column(row: Row, k: string): Option<string> {
    if k in row then Some(row[k]) else None
  }

  /** `new Set(components.map(c => c.name))`, ignoring the undefined names no string can equal. */
  function ComponentNames(components: seq<Row>): set<string> {
    set i | 0 <= i < |components| && "name" in components[i] :: components[i]["name"]
  }

  /** `field.split('|').map(c => c.trim())` */
  function UsedComponents(field: string): seq<string> {
    TrimEach(Split(field, '|'))
  }

  /** `parts.map(c => c.trim())` */
  function TrimEach(parts: seq<string>): (r: seq<string>)
    ensures |r| == |parts|
  {
    if parts == [] then [] else [Trim(parts[0])] + TrimEach(parts[1..])
  }

  lemma {:induction false} TrimEachAt(parts: seq<string>, i: nat)
    requires i < |parts|
    ensures TrimEach(parts)[i] == Trim(parts[i])
    decreases i
  {
    if i > 0 {
      TrimEachAt(parts[1..], i - 1);
    }
  }

  /**
   * A components field names one component more than it has `|` separators; no name
   * contains a separator or starts or ends with whitespace.
   */
  lemma UsedComponentsShape(field: string, i: nat)
    requires i < |UsedComponents(field)|
    ensures |UsedComponents(field)| == Occurrences(field, '|') + 1
    ensures '|' !in UsedComponents(field)[i]
    ensures var name := UsedComponents(field)[i];
      name != "" ==> !IsJsWhitespace(name[0]) && !IsJsWhitespace(name[|name| - 1])
  {
    var parts := Split(field, '|');
    TrimEachAt(parts, i);
    assert forall j :: 0 <= j < |parts[i]| ==> parts[i][j] != '|';
    TrimKeepsAbsent(parts[i], '|');
  }

  /** Trimming only removes characters, so a character absent before is absent after. */
  lemma TrimKeepsAbsent(s: string, c: char)
    requires c !in s
    ensures c !in Trim(s)
  {
    TrimIsInnerSlice(s);
    var a, b :| 0 <= a <= b <= |s| && Trim(s) == s[a..b];
    forall j | 0 <= j < |Trim(s)|
      ensures Trim(s)[j] != c
    {
      assert Trim(s)[j] == s[a + j];
    }
  }

  /** Among the first `n` used names, those that no component has, each as an error on `line`. */
  function UnknownOf(line: nat, used: seq<string>, n: nat, screen: Option<string>, names: set<string>): (r: seq<Issue>)
    requires n <= |used|
    ensures |r| <= n
  {
    if n == 0 then []
    else
      var last := used[n - 1];
      UnknownOf(line, used, n - 1, screen, names) + (if last in names then [] else [UnknownComponent(line, last, screen)])
  }

  /** Screen `index` (file line `index + 2`): skipped when its components field is empty or absent. */
  function ScreenIssues(index: nat, screen: Row, names: set<string>): seq<Issue> {
    if "components" in screen && screen["components"] != "" then
      var used := UsedComponents(screen["components"]);
      UnknownOf(index + 2, used, |used|, Column(screen, "name"), names)
    else []
  }

  /** What the check prints for each screen, with the component names in force. */
  function IssuesOf(names: set<string>): (nat, Row) -> seq<Issue> {
    (index: nat, screen: Row) => ScreenIssues(index, screen, names)
  }

  /** `issues` agrees with `ScreenIssues` on every screen it is asked about. */
  ghost predicate ChecksAs(issues: (nat, Row) -> seq<Issue>, names: set<string>) {
    forall index: nat, screen: Row {:trigger ScreenIssues(index, screen, names)} :: issues(index, screen) == ScreenIssues(index, screen, names)
  }

  lemma IssuesOfChecks(names: set<string>)
    ensures ChecksAs(IssuesOf(names), names)
  {
  }

  /** The errors of the first `n` screens, screen by screen, `issues` giving each screen's. */
  function ScreensIssues(screens: seq<Row>, n: nat, issues: (nat, Row) -> seq<Issue>): seq<Issue>
    requires n <= |screens|
  {
    if n == 0 then [] else ScreensIssues(screens, n - 1, issues) + issues(n - 1, screens[n - 1])
  }

  /** `validateConsistency`; an unreadable file makes the check throw. */
  function ConsistencyIssues(componentsCsv: Option<string>, screensCsv: Option<string>): seq<Issue> {
    if componentsCsv.None? || screensCsv.None? then [Failed(ConsistencyCheck)]
    else
      var screens := ParseCSV(screensCsv.value);
      ScreensIssues(screens, |screens|, IssuesOf(ComponentNames(ParseCSV(componentsCsv.value))))
  }

  /** Every error of a run, in printing order: tokens, assets, consistency. */
  function AllIssues(tokens: Option<Json>, assets: Option<Json>, componentsCsv: Option<string>,
                     screensCsv: Option<string>): (issues: seq<Issue>)
    ensures tokens.None? ==> Failed(TokensCheck) in issues
    ensures assets.None? ==> Failed(AssetsCheck) in issues
    ensures componentsCsv.None? || screensCsv.None? ==> Failed(ConsistencyCheck) in issues
  {
    TokenIssues(tokens) + AssetIssues(assets) + ConsistencyIssues(componentsCsv, screensCsv)
  }

  // ---------------------------------------------------------------------------
  // The validator and its flag

  /**
   * The script's module state: the `hasErrors` flag. What each check prints with
   * `console.error` is returned, in printing order, as `printed`.
   */
  class Validator {
    var hasErrors: bool

    constructor ()
      ensures !hasErrors
    {
      hasErrors := false;
    }

    /** Printing one error raises the flag; it is never lowered. */
    method Error(x: Issue) returns (printed: seq<Issue>)
      modifies this
      ensures printed == [x] && hasErrors
    {
      printed := [x];
      hasErrors := true;
    }

    method CheckSections(tokens: Json, sections: seq<string>) returns (printed: seq<Issue>)
      modifies this
      ensures printed == MissingSections(tokens, sections)
      ensures hasErrors == (old(hasErrors) || |printed| > 0)
    {
      printed := [];
      var i := 0;
      while i < |sections|
        invariant 0 <= i <= |sections|
        invariant printed == MissingSections(tokens, sections[..i])
        invariant hasErrors == (old(hasErrors) || |printed| > 0)
      {
        assert sections[..i + 1][..i] == sections[..i];
        if !Truthy(Get(tokens, sections[i])) {
          var line := Error(MissingSection(sections[i]));
          printed := printed + line;
        }
        i := i + 1;
      }
      assert sections[..i] == sections;
    }

    /** `validateTokens` */
    method ValidateTokens(tokens: Option<Json>) returns (printed: seq<Issue>)
      modifies this
      ensures printed == TokenIssues(tokens)
      ensures hasErrors == (old(hasErrors) || |printed| > 0)
    {
      if tokens.None? || tokens.value.Null? {
        printed := Error(Failed(TokensCheck));
      } else {
        printed := CheckSections(tokens.value, RequiredSections);
      }
    }

    method CheckFields(list: string, index: nat, item: Json, fields: seq<string>) returns (printed: seq<Issue>)
      modifies this
      ensures printed == FieldIssues(list, index, item, fields)
      ensures hasErrors == (old(hasErrors) || |printed| > 0)
    {
      printed := [];
      var i := 0;
      while i < |fields|
        invariant 0 <= i <= |fields|
        invariant printed == FieldIssues(list, index, item, fields[..i])
        invariant hasErrors == (old(hasErrors) || |printed| > 0)
      {
        assert fields[..i + 1][..i] == fields[..i];
        if !Truthy(Get(item, fields[i])) {
          var line := Error(MissingField(list, index, fields[i]));
          printed := printed + line;
        }
        i := i + 1;
      }
      assert fields[..i] == fields;
    }

    method CheckSizes(index: nat, sizes: seq<Json>) returns (printed: seq<Issue>, threw: bool)
      modifies this
      ensures printed == SizesReport(index, sizes).issues && threw == SizesReport(index, sizes).threw
      ensures hasErrors == (old(hasErrors) || |printed| > 0)
    {
      printed, threw := [], false;
      var i := 0;
      while i < |sizes|
        invariant 0 <= i <= |sizes|
        invariant printed == SizesReport(index, sizes[..i]).issues && threw == SizesReport(index, sizes[..i]).threw
        invariant hasErrors == (old(hasErrors) || |printed| > 0)
      {
        assert sizes[..i + 1][..i] == sizes[..i];
        if !threw {
          var size := sizes[i];
          if size.Null? {
            threw := true;
          } else if !Truthy(Get(size, "path")) {
            var line := Error(MissingPath(index, i));
            printed := printed + line;
          }
        }
        i := i + 1;
      }
      assert sizes[..i] == sizes;
    }

    method CheckItem(list: string, fields: seq<string>, index: nat, item: Json) returns (printed: seq<Issue>, threw: bool)
      modifies this
      ensures printed == ItemReport(list, fields, index, item).issues
      ensures threw == ItemReport(list, fields, index, item).threw
      ensures hasErrors == (old(hasErrors) || |printed| > 0)
    {
      if item.Null? {
        printed, threw := [], true;
      } else {
        printed := CheckFields(list, index, item, fields);
        threw := false;
        if list == "icons" && HasSizeArray(item) {
          var more;
          more, threw := CheckSizes(index, Get(item, "sizes").value.items);
          printed := printed + more;
        }
      }
    }

    /** One `forEach` over the icons or the images. */
    method CheckList(list: string, fields: seq<string>, items: seq<Json>) returns (printed: seq<Issue>, threw: bool)
      modifies this
      ensures printed == ListReport(list, fields, items).issues && threw == ListReport(list, fields, items).threw
      ensures hasErrors == (old(hasErrors) || |printed| > 0)
    {
      printed, threw := [], false;
      var i := 0;
      while i < |items|
        invariant 0 <= i <= |items|
        invariant printed == ListReport(list, fields, items[..i]).issues
        invariant threw == ListReport(list, fields, items[..i]).threw
        invariant hasErrors == (old(hasErrors) || |printed| > 0)
      {
        assert items[..i + 1][..i] == items[..i];
        if !threw {
          var more;
          more, threw := CheckItem(list, fields, i, items[i]);
          printed := printed + more;
        }
        i := i + 1;
      }
      assert items[..i] == items;
    }

    method CheckSection(list: string, fields: seq<string>, value: Option<Json>) returns (printed: seq<Issue>, threw: bool)
      modifies this
      ensures printed == SectionReport(list, fields, value).issues
      ensures threw == SectionReport(list, fields, value).threw
      ensures hasErrors == (old(hasErrors) || |printed| > 0)
    {
      printed, threw := [], false;
      if Truthy(value) {
        if value.value.Arr? {
          printed, threw := CheckList(list, fields, value.value.items);
        } else {
          threw := true;
        }
      }
    }

    /** `validateAssets` */
    method ValidateAssets(assets: Option<Json>) returns (printed: seq<Issue>)
      modifies this
      ensures printed == AssetIssues(assets)
      ensures hasErrors == (old(hasErrors) || |printed| > 0)
    {
      if assets.None? || assets.value.Null? {
        printed := Error(Failed(AssetsCheck));
        return;
      }
      var a := assets.value;
      var threw;
      printed, threw := CheckSection("icons", RequiredFields, Get(a, "icons"));
      if !threw {
        var more;
        more, threw := CheckSection("images", RequiredFields, Get(a, "images"));
        printed := printed + more;
      }
      if threw {
        var line := Error(Failed(AssetsCheck));
        printed := printed + line;
      }
    }

    /** The inner `forEach`: one error per used name that no component has. */
    method CheckUsed(line: nat, used: seq<string>, screen: Option<string>, names: set<string>) returns (printed: seq<Issue>)
      modifies this
      ensures printed == UnknownOf(line, used, |used|, screen, names)
      ensures hasErrors == (old(hasErrors) || |printed| > 0)
    {
      printed := [];
      var i := 0;
      while i < |used|
        invariant 0 <= i <= |used|
        invariant printed == UnknownOf(line, used, i, screen, names)
        invariant hasErrors == (old(hasErrors) || |printed| > 0)
      {
        if used[i] !in names {
          var one := Error(UnknownComponent(line, used[i], screen));
          printed := printed + one;
        }
        i := i + 1;
      }
    }

    method CheckScreen(index: nat, screen: Row, names: set<string>, ghost issues: (nat, Row) -> seq<Issue>) returns (printed: seq<Issue>)
      requires ChecksAs(issues, names)
      modifies this
      ensures printed == issues(index, screen)
      ensures hasErrors == (old(hasErrors) || |printed| > 0)
    {
      printed := [];
      if "components" in screen && screen["components"] != "" {
        printed := CheckUsed(index + 2, UsedComponents(screen["components"]), Column(screen, "name"), names);
      }
      assert printed == ScreenIssues(index, screen, names);
    }

    /** The `forEach` over the screens. */
    method CheckScreens(screens: seq<Row>, names: set<string>, ghost issues: (nat, Row) -> seq<Issue>) returns (printed: seq<Issue>)
      requires ChecksAs(issues, names)
      modifies this
      ensures printed == ScreensIssues(screens, |screens|, issues)
      ensures hasErrors == (old(hasErrors) || |printed| > 0)
    {
      printed := [];
      var i := 0;
      while i < |screens|
        invariant 0 <= i <= |screens|
        invariant printed == ScreensIssues(screens, i, issues)
        invariant hasErrors == (old(hasErrors) || |printed| > 0)
      {
        var more := CheckScreen(i, screens[i], names, issues);
        printed := printed + more;
        i := i + 1;
      }
    }

    /** `validateConsistency` */
    method ValidateConsistency(componentsCsv: Option<string>, screensCsv: Option<string>) returns (printed: seq<Issue>)
      modifies this
      ensures printed == ConsistencyIssues(componentsCsv, screensCsv)
      ensures hasErrors == (old(hasErrors) || |printed| > 0)
    {
      if componentsCsv.None? || screensCsv.None? {
        printed := Error(Failed(ConsistencyCheck));
      } else {
        var components := ParseCSV(componentsCsv.value);
        var screens := ParseCSV(screensCsv.value);
        var names := ComponentNames(components);
        IssuesOfChecks(names);
        printed := CheckScreens(screens, names, IssuesOf(names));
      }
    }
  }

  /**
   * The whole script: tokens, assets, then consistency, each reading its own inputs (`None`
   * for a file that cannot be read or parsed). The exit code is 1 exactly when an error was printed.
   */
  method RunValidation(tokens: Option<Json>, assets: Option<Json>, componentsCsv: Option<string>,
                       screensCsv: Option<string>) returns (exitCode: int, printed: seq<Issue>)
    ensures printed == AllIssues(tokens, assets, componentsCsv, screensCsv)
    ensures exitCode == (if printed == [] then 0 else 1)
  {
    var v := new Validator();
    var fromTokens := v.ValidateTokens(tokens);
    var fromAssets := v.ValidateAssets(assets);
    var fromConsistency := v.ValidateConsistency(componentsCsv, screensCsv);
    printed := fromTokens + fromAssets + fromConsistency;
    exitCode := if v.hasErrors then 1 else 0;
  }

  // ---------------------------------------------------------------------------
  // Properties


  /** Row field `i` holds column `i`, or '' past the end, unless a later column has the same header. */
  lemma {:induction false} RowField(headers: seq<string>, values: seq<string>, i: nat)
    requires i < |headers|
    requires forall j :: i < j < |headers| ==> headers[j] != headers[i]
    ensures RowOf(headers, values)[headers[i]] == FieldAt(values, i)
    decreases |headers|
  {
    var n := |headers| - 1;
    if i < n {
      RowField(headers[..n], values, i);
    }
  }

  /** Values beyond the last header are ignored. */
  lemma {:induction false} ExtraValuesIgnored(headers: seq<string>, values: seq<string>)
    requires |values| >= |headers|
    ensures RowOf(headers, values) == RowOf(headers, values[..|headers|])
    decreases |headers|
  {
    if headers != [] {
      var n := |headers| - 1;
      ExtraValuesIgnored(headers[..n], values);
      ExtraValuesIgnored(headers[..n], values[..|headers|]);
      assert values[..|headers|][..n] == values[..n];
    }
  }

  /** Every row has exactly the columns the header line names. */
  lemma RowsHaveHeaderColumns(csv: string, i: nat)
    requires i < |ParseCSV(csv)|
    ensures ParseCSV(csv)[i].Keys == set h | h in Split(Split(Trim(csv), '\n')[0], ',')
  {
    var lines := Split(Trim(csv), '\n');
    assert ParseCSV(csv)[i] == RowOf(Split(lines[0], ','), Split(lines[i + 1], ','));
  }

  /** A section is reported exactly when it is missing or falsy. */
  lemma {:induction false} MissingSectionsExactly(tokens: Json, sections: seq<string>, s: string)
    ensures MissingSection(s) in MissingSections(tokens, sections) <==> s in sections && !Truthy(Get(tokens, s))
    decreases |sections|
  {
    if sections != [] {
      var init := sections[..|sections| - 1];
      MissingSectionsExactly(tokens, init, s);
      assert sections == init + [sections[|sections| - 1]];
    }
  }

  /** A field is reported exactly when it is missing or falsy. */
  lemma {:induction false} FieldIssuesExactly(list: string, index: nat, item: Json, fields: seq<string>, f: string)
    ensures MissingField(list, index, f) in FieldIssues(list, index, item, fields) <==> f in fields && !Truthy(Get(item, f))
    decreases |fields|
  {
    if fields != [] {
      var init := fields[..|fields| - 1];
      FieldIssuesExactly(list, index, item, init, f);
      assert fields == init + [fields[|fields| - 1]];
    }
  }

  /** A used component is reported exactly when no component row has that name. */
  lemma {:induction false} UnknownExactly(line: nat, used: seq<string>, n: nat, screen: Option<string>, names: set<string>, c: string)
    requires n <= |used|
    ensures UnknownComponent(line, c, screen) in UnknownOf(line, used, n, screen, names) <==> c in used[..n] && c !in names
  {
    if n > 0 {
      UnknownExactly(line, used, n - 1, screen, names, c);
      assert used[..n] == used[..n - 1] + [used[n - 1]];
    }
  }

  /** Images never get a size check: no `MissingPath` error comes from the image list. */
  lemma {:induction false} ImagesHaveNoPathErrors(fields: seq<string>, items: seq<Json>, x: Issue)
    requires x in ListReport("images", fields, items).issues
    ensures x.MissingField? && x.list == "images"
    decreases |items|
  {
    var n := |items| - 1;
    var prev := ListReport("images", fields, items[..n]);
    if x in prev.issues {
      ImagesHaveNoPathErrors(fields, items[..n], x);
    }
  }

  /** An empty sizes array is truthy: it passes the required-field check and has no paths to check. */
  lemma EmptySizesPass(icon: seq<(string, Json)>, fields: seq<string>)
    requires Lookup(icon, "sizes") == Some(Arr([]))
    ensures MissingField("icons", 0, "sizes") !in ItemReport("icons", fields, 0, Obj(icon)).issues
    ensures !ItemReport("icons", fields, 0, Obj(icon)).threw
  {
    FieldIssuesExactly("icons", 0, Obj(icon), fields, "sizes");
    assert SizesReport(0, []) == Report([], false);
  }

  /** Once a check has thrown, later items add nothing. */
  lemma {:induction false} ListStopsAtThrow(list: string, fields: seq<string>, items: seq<Json>, k: nat)
    requires k <= |items| && ListReport(list, fields, items[..k]).threw
    ensures ListReport(list, fields, items) == ListReport(list, fields, items[..k])
    decreases |items| - k
  {
    if k < |items| {
      var n := |items| - 1;
      assert items[..n][..k] == items[..k];
      ListStopsAtThrow(list, fields, items[..n], k);
    } else {
      assert items[..k] == items;
    }
  }

  /** The run fails exactly when some check reported something; a clean run needs all three clean. */
  lemma FailsIffSomeCheckReports(tokens: Option<Json>, assets: Option<Json>, componentsCsv: Option<string>,
                                 screensCsv: Option<string>)
    ensures AllIssues(tokens, assets, componentsCsv, screensCsv) == [] <==>
      TokenIssues(tokens) == [] && AssetIssues(assets) == [] && ConsistencyIssues(componentsCsv, screensCsv) == []
  {
  }
}
