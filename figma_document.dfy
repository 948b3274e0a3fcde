/**
 * The Figma document as the plugin changes it: its pages, the paint and text styles it adds,
 * the process-wide font pair, the progress percentages posted to the plugin's UI, and whether
 * the plugin was closed. Each batch operation of the plugin is a method on the document.
 */
module FigmaDocument {
  import opened Wrappers
  import opened JsText
  import opened HexColor
  import opened FigmaNodes
  import opened FigmaFonts
  import opened ScreenRegistry
  import opened FlowMap

  /** A page and the top-level nodes created on it, in creation order. */
  datatype Page = Page(name: string, nodes: seq<Node>)

  datatype PaintStyle = PaintStyle(name: string, color: Rgb)

  datatype TextStyle = TextStyle(name: string, fontSize: nat, lineHeight: nat, font: Font)

  const ScreensPageName := "📱 DDA Mobile — All Screens"
  const FlowPageName := "🗺️ DDA Mobile — Flow Map"
  const GeneratedMarker := "DDA Mobile"

  // ---------------------------------------------------------------------------
  // Style tables

  /** The colour table, in the order `Object.entries` visits it. */
  const ColorTable: seq<(string, string)> := [
    ("Light/Background", "#f9fafb"), ("Light/Surface", "#ffffff"),
    ("Light/Text Primary", "#111827"), ("Light/Text Secondary", "#6b7280"),
    ("Light/Text Muted", "#9ca3af"), ("Light/Brand", "#22c55e"),
    ("Light/Brand Alt", "#16a34a"), ("Light/Border", "#e5e7eb"),
    ("Light/Accent", "#3b82f6"), ("Light/Danger", "#ef4444"),
    ("Dark/Background", "#111827"), ("Dark/Surface", "#1f2937"),
    ("Dark/Text Primary", "#f9fafb"), ("Dark/Text Secondary", "#d1d5db"),
    ("Dark/Text Muted", "#9ca3af"), ("Dark/Brand", "#34d399"),
    ("Dark/Brand Alt", "#10b981"), ("Dark/Border", "#374151"),
    ("Dark/Accent", "#60a5fa"), ("Dark/Danger", "#f87171"),
    ("Brand/Primary 50", "#f0fdf4"), ("Brand/Primary 100", "#dcfce7"),
    ("Brand/Primary 200", "#bbf7d0"), ("Brand/Primary 300", "#86efac"),
    ("Brand/Primary 400", "#4ade80"), ("Brand/Primary 500", "#22c55e"),
    ("Brand/Primary 600", "#16a34a"), ("Brand/Primary 700", "#15803d"),
    ("Brand/Primary 800", "#166534"), ("Brand/Primary 900", "#14532d")
  ]

  /** One paint style per (name, hex) entry, in order. */
  function PaintStylesOf(table: seq<(string, string)>): (styles: seq<PaintStyle>)
    ensures |styles| == |table|
  {
    seq(|table|, i requires 0 <= i < |table| => PaintStyle(table[i].0, HexToRgb(table[i].1)))
  }

  /** The paint styles one run of `createColorStyles` adds. */
  function ColorStyles(): (styles: seq<PaintStyle>) {
    PaintStylesOf(ColorTable)
  }

  datatype TextStyleRow = TextStyleRow(name: string, size: nat, lineHeight: nat, weight: string)

  const TextStyleTable: seq<TextStyleRow> := [
    TextStyleRow("Typography/H1", 28, 36, "Bold"),
    TextStyleRow("Typography/H2", 22, 30, "Bold"),
    TextStyleRow("Typography/H3", 18, 24, "Bold"),
    TextStyleRow("Typography/Body", 16, 24, "Regular"),
    TextStyleRow("Typography/Body Small", 14, 20, "Regular"),
    TextStyleRow("Typography/Caption", 12, 16, "Regular")
  ]

  function StyleFont(row: TextStyleRow, fonts: FontPair): Font {
    if row.weight == "Bold" then fonts.bold else fonts.regular
  }

  function TextStylesOf(table: seq<TextStyleRow>, fonts: FontPair): (styles: seq<TextStyle>)
    ensures |styles| == |table|
  {
    seq(|table|, i requires 0 <= i < |table| =>
      TextStyle(table[i].name, table[i].size, table[i].lineHeight, StyleFont(table[i], fonts)))
  }

  /** The text styles one run of `createTextStyles` adds with the fonts in force. */
  function TextStyles(fonts: FontPair): seq<TextStyle> {
    TextStylesOf(TextStyleTable, fonts)
  }

  // ---------------------------------------------------------------------------
  // Screen placement

  /** Four columns 455 apart (375 wide plus an 80 gap), rows 900 apart. */
  function GridX(i: nat): int { (i % 4) * 455 }
  function GridY(i: nat): int { (i / 4) * 900 }

  const DarkRowY := 8100

  /** A screen frame after a design with effect `e` ran: 375x812, corner radius 20, background `background` unless the design set one. */
  function ScreenNode(d: Descriptor, x: int, y: int, background: string, e: Effect): Node {
    Frame(d.name, x, y, 375, 812, if e.fill.Some? then e.fill else Solid(background), None, 20, e.appended)
  }

  /** `createScreenDesign` as a function of the screen, with the fonts and drawings in force. */
  function DesignOf(fonts: FontPair, draw: DrawCall -> Drawing): Descriptor -> Effect {
    d => DesignEffect(d, fonts, draw)
  }

  /** `design` agrees with `createScreenDesign` on every screen it is asked about. */
  ghost predicate Designs(design: Descriptor -> Effect, fonts: FontPair, draw: DrawCall -> Drawing) {
    forall d {:trigger DesignEffect(d, fonts, draw)} :: design(d) == DesignEffect(d, fonts, draw)
  }

  lemma DesignOfDesigns(fonts: FontPair, draw: DrawCall -> Drawing)
    ensures Designs(DesignOf(fonts, draw), fonts, draw)
  {
  }

  /** Screens on the grid, on the light background. */
  function GridScreenNodes(screens: seq<Descriptor>, design: Descriptor -> Effect): (nodes: seq<Node>)
    ensures |nodes| == |screens|
  {
    seq(|screens|, i requires 0 <= i < |screens| =>
      ScreenNode(screens[i], GridX(i), GridY(i), "#f9fafb", design(screens[i])))
  }

  /** Screens in one row at y = 8100, on the dark background. */
  function DarkRowNodes(screens: seq<Descriptor>, design: Descriptor -> Effect): (nodes: seq<Node>)
    ensures |nodes| == |screens|
  {
    seq(|screens|, i requires 0 <= i < |screens| =>
      ScreenNode(screens[i], i * 455, DarkRowY, "#111827", design(screens[i])))
  }

  function MainScreenNodes(fonts: FontPair, draw: DrawCall -> Drawing): seq<Node> {
    GridScreenNodes(MainScreens, DesignOf(fonts, draw))
  }

  function DarkScreenNodes(fonts: FontPair, draw: DrawCall -> Drawing): seq<Node> {
    DarkRowNodes(DarkScreens, DesignOf(fonts, draw))
  }

  // ---------------------------------------------------------------------------
  // Progress streams

  /** `40 + Math.floor((i / n) * 40)` after screen `i` of `n`. */
  function ScreenProgress(i: nat, n: nat): (p: int)
    requires n > 0
    ensures i < n ==> 40 <= p < 80
    ensures i == 0 ==> p == 40
  {
    40 + (40 * i) / n
  }

  function ProgressStream(n: nat): (s: seq<int>)
    ensures |s| == n
  {
    seq(n, i requires 0 <= i < n => ScreenProgress(i, n))
  }

  const ScreenProgressStream: seq<int> := ProgressStream(|MainScreens|)

  const EverythingProgress: seq<int> := [5, 15, 25, 40] + ScreenProgressStream + [85, 100]
  const StylesOnlyProgress: seq<int> := [20, 100]
  const RegenerateProgress: seq<int> := [10, 20] + EverythingProgress
  const FlowMapProgress: seq<int> := [20, 100]

  predicate NonDecreasing(s: seq<int>) {
    forall i, j :: 0 <= i <= j < |s| ==> s[i] <= s[j]
  }

  // ---------------------------------------------------------------------------
  // Page removal

  predicate IsGenerated(p: Page) {
    Contains(p.name, GeneratedMarker)
  }

  /** The pages `regenerateAll` keeps: those whose name does not include "DDA Mobile", in order. */
  function KeptPages(pages: seq<Page>): (kept: seq<Page>)
    ensures |kept| <= |pages|
    ensures forall p :: p in kept <==> p in pages && !IsGenerated(p)
  {
    if pages == [] then []
    else
      var last := pages[|pages| - 1];
      var init := KeptPages(pages[..|pages| - 1]);
      assert forall p :: p in pages <==> p in pages[..|pages| - 1] || p == last;
      if IsGenerated(last) then init else init + [last]
  }

  /** `message.type` values the plugin recognises. */
  datatype Command = CreateAll | CreateStyles | Regenerate | CreateFlow | Close | Other

  function ParseCommand(t: string): (c: Command)
    ensures c == Other <==> t !in {"create-all", "create-styles", "regenerate", "create-flow", "close"}
  {
    if t == "create-all" then CreateAll
    else if t == "create-styles" then CreateStyles
    else if t == "regenerate" then Regenerate
    else if t == "create-flow" then CreateFlow
    else if t == "close" then Close
    else Other
  }

  /** `pages` with `more` appended to the nodes of page `k`. */
  function Appended(pages: seq<Page>, k: nat, more: seq<Node>): (r: seq<Page>)
    requires k < |pages|
    ensures |r| == |pages| && r[k].name == pages[k].name && r[k].nodes == pages[k].nodes + more
  {
    pages[k := Page(pages[k].name, pages[k].nodes + more)]
  }

  lemma AppendedNothing(pages: seq<Page>, k: nat)
    requires k < |pages|
    ensures Appended(pages, k, []) == pages
  {
    assert pages[k].nodes + [] == pages[k].nodes;
  }

  /** Appending to the last page of `pages + [p]`. */
  lemma AppendedToLast(pages: seq<Page>, p: Page, more: seq<Node>)
    ensures Appended(pages + [p], |pages|, more) == pages + [Page(p.name, p.nodes + more)]
  {
  }

  lemma AppendedTwice(pages: seq<Page>, k: nat, a: seq<Node>, b: seq<Node>)
    requires k < |pages|
    ensures Appended(Appended(pages, k, a), k, b) == Appended(pages, k, a + b)
  {
    assert pages[k].nodes + a + b == pages[k].nodes + (a + b);
  }

  /** Appending element `i` after the first `i` elements of `more` appends the first `i + 1`. */
  lemma AppendedPrefix(pages: seq<Page>, k: nat, more: seq<Node>, i: nat)
    requires k < |pages| && i < |more|
    ensures Appended(Appended(pages, k, more[..i]), k, [more[i]]) == Appended(pages, k, more[..i + 1])
  {
    AppendedTwice(pages, k, more[..i], [more[i]]);
    assert more[..i] + [more[i]] == more[..i + 1];
  }

  /** Posting the progress of screen `i` extends the posted prefix of the stream by one. */
  lemma ProgressPrefix(before: seq<int>, n: nat, i: nat)
    requires i < n
    ensures before + ProgressStream(n)[..i] + [ScreenProgress(i, n)] == before + ProgressStream(n)[..i + 1]
  {
    var s := ProgressStream(n);
    assert s[..i + 1] == s[..i] + [s[i]];
  }

  lemma PrefixSnoc<T>(s: seq<T>, i: nat)
    requires i < |s|
    ensures s[..i + 1] == s[..i] + [s[i]]
  {
  }

  /** One more target: its connector, if it names a box, follows those drawn so far. */
  lemma EdgesFromStep(from: Flow, targets: seq<string>, j: nat, all: seq<Flow>, target: Option<Flow>)
    requires j < |targets| && target == FindFlow(all, targets[j])
    ensures Draw(EdgesFrom(from, targets[..j + 1], all)) ==
      Draw(EdgesFrom(from, targets[..j], all)) + (if target.Some? then Connector(from, target.value) else [])
  {
    var extra := if target.Some? then [(from, target.value)] else [];
    EdgesFromSnoc(from, targets, j, all, target);
    DrawAppend(EdgesFrom(from, targets[..j], all), extra);
    if target.Some? {
      assert Draw(extra) == Draw([]) + Connector(from, target.value);
    }
  }

  lemma EdgesFromSnoc(from: Flow, targets: seq<string>, j: nat, all: seq<Flow>, target: Option<Flow>)
    requires j < |targets| && target == FindFlow(all, targets[j])
    ensures EdgesFrom(from, targets[..j + 1], all) ==
      EdgesFrom(from, targets[..j], all) + (if target.Some? then [(from, target.value)] else [])
  {
    assert targets[..j + 1][..j] == targets[..j];
  }

  /** Screen `i`, counted as column `col` of row `row`, sits at x = 455 col and y = 900 row. */
  lemma GridCell(i: nat, row: nat, col: nat)
    requires i == 4 * row + col && col < 4
    ensures GridX(i) == col * 455 && GridY(i) == row * 900
  {
  }

  /** The column counter wraps exactly after the fourth screen of a row. */
  lemma WrapsAfterFourth(i: nat, row: nat, col: nat)
    requires i + 1 == 4 * row + col && 1 <= col <= 4
    ensures (i + 1) % 4 == 0 <==> col == 4
  {
  }

  class Document {
    var pages: seq<Page>
    /** Index of `figma.currentPage`, or -1 once that page has been removed. */
    var current: int
    var paintStyles: seq<PaintStyle>
    var textStyles: seq<TextStyle>
    /** The plugin's `currentFont` and `boldFont`. */
    var fonts: FontPair
    /** The `progress` fields of the messages posted to the UI. */
    var progress: seq<int>
    var closed: bool

    predicate Valid()
      reads this
    {
      -1 <= current < |pages|
    }

    /** The plugin starting on a document with at least one page, showing the first. */
    constructor (initial: seq<Page>)
      requires |initial| >= 1
      ensures Valid() && pages == initial && current == 0
      ensures paintStyles == [] && textStyles == [] && fonts == InitialFonts
      ensures progress == [] && !closed
    {
      pages, current := initial, 0;
      paintStyles, textStyles := [], [];
      fonts := InitialFonts;
      progress, closed := [], false;
    }

    method Post(percent: int)
      modifies this`progress
      ensures progress == old(progress) + [percent]
    {
      progress := progress + [percent];
    }

    /** `figma.createPage()` with a name, made the current page. */
    method CreateCurrentPage(name: string)
      modifies this`pages, this`current
      ensures pages == old(pages) + [Page(name, [])] && current == |pages| - 1
    {
      pages := pages + [Page(name, [])];
      current := |pages| - 1;
    }

    /** A node created on (or moved to) the current page. */
    method AddToCurrentPage(n: Node)
      requires 0 <= current < |pages|
      modifies this`pages
      ensures pages == Appended(old(pages), current, [n])
    {
      pages := pages[current := Page(pages[current].name, pages[current].nodes + [n])];
    }

    /** `loadFonts` */
    method LoadFonts(host: FontHost)
      modifies this`fonts
      ensures fonts == SelectFonts(old(fonts), host)
    {
      if host.listed.None? {
        return;
      }
      var list := host.listed.value;
      var hasRegular := InterRegular in list;
      var hasBold := InterBold in list;
      if hasRegular {
        fonts := FontPair(InterRegular, fonts.bold);
        if InterRegular in host.unloadable {
          return;
        }
      }
      if hasBold {
        fonts := FontPair(fonts.regular, InterBold);
        if InterBold in host.unloadable {
          return;
        }
      }
      if !hasRegular {
        var k := 0;
        while k < |FallbackFamilies|
          invariant 0 <= k <= |FallbackFamilies|
          invariant FirstFallback(list, FallbackFamilies) == FirstFallback(list, FallbackFamilies[k..])
          invariant fonts == SelectFonts(old(fonts), host) || FirstFallback(list, FallbackFamilies).Some?
          invariant FirstFallback(list, FallbackFamilies).Some? ==> fonts.bold == SelectFonts(old(fonts), host).bold
          invariant fonts.bold == SelectFonts(old(fonts), host).bold
        {
          var found := FirstOfFamily(list, FallbackFamilies[k]);
          if found.Some? {
            fonts := FontPair(found.value, fonts.bold);
            return;
          }
          k := k + 1;
        }
      }
    }

    /** `createColorStyles`: one paint style per table entry, appended to those already there. */
    method CreateColorStyles()
      modifies this`paintStyles
      ensures paintStyles == old(paintStyles) + ColorStyles()
    {
      AddPaintStyles(ColorTable);
    }

    /** The `for … of Object.entries(colors)` loop. */
    method AddPaintStyles(table: seq<(string, string)>)
      modifies this`paintStyles
      ensures paintStyles == old(paintStyles) + PaintStylesOf(table)
    {
      var i := 0;
      while i < |table|
        invariant 0 <= i <= |table|
        invariant paintStyles == old(paintStyles) + PaintStylesOf(table)[..i]
      {
        var (name, hex) := table[i];
        paintStyles := paintStyles + [PaintStyle(name, HexToRgb(hex))];
        assert PaintStylesOf(table)[..i + 1] == PaintStylesOf(table)[..i] + [PaintStyle(name, HexToRgb(hex))];
        i := i + 1;
      }
      assert PaintStylesOf(table)[..i] == PaintStylesOf(table);
    }

    /** `createTextStyles`: one text style per row, in the bold or the regular font of the moment. */
    method CreateTextStyles()
      modifies this`textStyles
      ensures textStyles == old(textStyles) + TextStyles(fonts)
    {
      AddTextStyles(TextStyleTable);
    }

    method AddTextStyles(table: seq<TextStyleRow>)
      modifies this`textStyles
      ensures textStyles == old(textStyles) + TextStylesOf(table, fonts)
    {
      var i := 0;
      while i < |table|
        invariant 0 <= i <= |table|
        invariant textStyles == old(textStyles) + TextStylesOf(table, fonts)[..i]
      {
        var row := table[i];
        var style := TextStyle(row.name, row.size, row.lineHeight, StyleFont(row, fonts));
        textStyles := textStyles + [style];
        assert TextStylesOf(table, fonts)[..i + 1] == TextStylesOf(table, fonts)[..i] + [style];
        i := i + 1;
      }
      assert TextStylesOf(table, fonts)[..i] == TextStylesOf(table, fonts);
    }

    /** Creates one screen frame on the current page and runs its design. */
    method AddScreen(d: Descriptor, x: int, y: int, background: string, draw: DrawCall -> Drawing, ghost design: Descriptor -> Effect)
      requires 0 <= current < |pages| && Designs(design, fonts, draw)
      modifies this`pages
      ensures pages == Appended(old(pages), current, [ScreenNode(d, x, y, background, design(d))])
    {
      var frame := new ScreenFrame(d.name, x, y, 375, 812, HexToRgb(background), 20);
      CreateScreenDesign(frame, d, fonts, draw);
      assert frame.Value() == ScreenNode(d, x, y, background, DesignEffect(d, fonts, draw));
      AddToCurrentPage(frame.Value());
    }

    /**
     * `createAllScreens`: a new current page holding the thirty screens on the four-column
     * grid, with one progress message per screen.
     */
    method CreateAllScreens(draw: DrawCall -> Drawing)
      modifies this`pages, this`current, this`progress
      ensures pages == old(pages) + [Page(ScreensPageName, MainScreenNodes(fonts, draw))]
      ensures current == |pages| - 1
      ensures progress == old(progress) + ScreenProgressStream
    {
      CreateCurrentPage(ScreensPageName);
      ghost var withPage := pages;
      DesignOfDesigns(fonts, draw);
      PlaceOnGrid(MainScreens, draw, DesignOf(fonts, draw));
      assert [] + MainScreenNodes(fonts, draw) == MainScreenNodes(fonts, draw);
      assert pages == withPage[current := Page(ScreensPageName, MainScreenNodes(fonts, draw))];
    }

    /** The placement loop: `x` and `y` advance column by column, wrapping after every fourth screen. */
    method PlaceOnGrid(screens: seq<Descriptor>, draw: DrawCall -> Drawing, ghost design: Descriptor -> Effect)
      requires 0 <= current < |pages| && Designs(design, fonts, draw)
      modifies this`pages, this`progress
      ensures pages == Appended(old(pages), current, GridScreenNodes(screens, design))
      ensures progress == old(progress) + ProgressStream(|screens|)
    {
      ghost var placed := GridScreenNodes(screens, design);
      AppendedNothing(pages, current);
      var x, y := 0, 0;
      ghost var row, col := 0, 0;
      var i := 0;
      while i < |screens|
        invariant 0 <= i <= |screens|
        invariant i == 4 * row + col && 0 <= row && 0 <= col < 4
        invariant x == col * 455 && y == row * 900
        invariant pages == Appended(old(pages), current, placed[..i])
        invariant progress == old(progress) + ProgressStream(|screens|)[..i]
      {
        GridCell(i, row, col);
        AddScreen(screens[i], x, y, "#f9fafb", draw, design);
        AppendedPrefix(old(pages), current, placed, i);
        x := x + 455;
        col := col + 1;
        WrapsAfterFourth(i, row, col);
        if (i + 1) % 4 == 0 {
          x := 0;
          y := y + 900;
          row, col := row + 1, 0;
        }
        Post(ScreenProgress(i, |screens|));
        ProgressPrefix(old(progress), |screens|, i);
        i := i + 1;
      }
      assert placed[..i] == placed;
      assert ProgressStream(|screens|)[..i] == ProgressStream(|screens|);
    }

    /** `createDarkVariants`: the four dark screens in one row at y = 8100 of the current page. */
    method CreateDarkVariants(draw: DrawCall -> Drawing)
      requires 0 <= current < |pages|
      modifies this`pages
      ensures pages == Appended(old(pages), current, DarkScreenNodes(fonts, draw))
    {
      DesignOfDesigns(fonts, draw);
      PlaceInDarkRow(DarkScreens, draw, DesignOf(fonts, draw));
    }

    method PlaceInDarkRow(screens: seq<Descriptor>, draw: DrawCall -> Drawing, ghost design: Descriptor -> Effect)
      requires 0 <= current < |pages| && Designs(design, fonts, draw)
      modifies this`pages
      ensures pages == Appended(old(pages), current, DarkRowNodes(screens, design))
    {
      ghost var placed := DarkRowNodes(screens, design);
      AppendedNothing(pages, current);
      var x, y := 0, DarkRowY;
      var i := 0;
      while i < |screens|
        invariant 0 <= i <= |screens| && x == i * 455 && y == DarkRowY
        invariant pages == Appended(old(pages), current, placed[..i])
      {
        AddScreen(screens[i], x, y, "#111827", draw, design);
        AppendedTwice(old(pages), current, placed[..i], [placed[i]]);
        PrefixSnoc(placed, i);
        x := x + 455;
        i := i + 1;
      }
      assert placed[..i] == placed;
    }

    /** `createEverything`: fonts, styles, the screens page, the dark row, with progress 5 … 100. */
    method CreateEverything(fontHost: FontHost, draw: DrawCall -> Drawing)
      modifies this
      ensures fonts == SelectFonts(old(fonts), fontHost)
      ensures paintStyles == old(paintStyles) + ColorStyles()
      ensures textStyles == old(textStyles) + TextStyles(fonts)
      ensures pages == old(pages) + [Page(ScreensPageName, MainScreenNodes(fonts, draw) + DarkScreenNodes(fonts, draw))]
      ensures current == |pages| - 1
      ensures progress == old(progress) + EverythingProgress
      ensures closed == old(closed)
    {
      CreateStylesPart(fontHost);
      CreateScreensPage(draw);
      Post(100);
      assert EverythingProgress == [5, 15, 25, 40] + (ScreenProgressStream + [85]) + [100];
    }

    /** The styles part of `createEverything`: progress 5, the fonts, 15, the paint styles, 25, the text styles, 40. */
    method CreateStylesPart(fontHost: FontHost)
      modifies this`progress, this`fonts, this`paintStyles, this`textStyles
      ensures fonts == SelectFonts(old(fonts), fontHost)
      ensures paintStyles == old(paintStyles) + ColorStyles()
      ensures textStyles == old(textStyles) + TextStyles(fonts)
      ensures progress == old(progress) + [5, 15, 25, 40]
    {
      Post(5);
      LoadFonts(fontHost);
      Post(15);
      CreateColorStyles();
      Post(25);
      CreateTextStyles();
      Post(40);
    }

    /** The screens part of `createEverything`: the grid page, progress 85, then the dark row on the same page. */
    method CreateScreensPage(draw: DrawCall -> Drawing)
      modifies this`pages, this`current, this`progress
      ensures pages == old(pages) + [Page(ScreensPageName, MainScreenNodes(fonts, draw) + DarkScreenNodes(fonts, draw))]
      ensures current == |pages| - 1
      ensures progress == old(progress) + ScreenProgressStream + [85]
    {
      ghost var before := pages;
      CreateAllScreens(draw);
      Post(85);
      CreateDarkVariants(draw);
      AppendedToLast(before, Page(ScreensPageName, MainScreenNodes(fonts, draw)), DarkScreenNodes(fonts, draw));
    }

    /** `createStylesOnly` */
    method CreateStylesOnly(fontHost: FontHost)
      modifies this`progress, this`fonts, this`paintStyles, this`textStyles
      ensures fonts == SelectFonts(old(fonts), fontHost)
      ensures paintStyles == old(paintStyles) + ColorStyles()
      ensures textStyles == old(textStyles) + TextStyles(fonts)
      ensures progress == old(progress) + StylesOnlyProgress
    {
      Post(20);
      LoadFonts(fontHost);
      CreateColorStyles();
      CreateTextStyles();
      Post(100);
    }

    /** The removal loop of `regenerateAll`: every page whose name includes "DDA Mobile" goes. */
    method RemoveGeneratedPages()
      requires Valid()
      modifies this`pages, this`current
      ensures Valid() && pages == KeptPages(old(pages))
    {
      var kept: seq<Page> := [];
      var newCurrent := -1;
      var k := 0;
      while k < |pages|
        invariant 0 <= k <= |pages|
        invariant kept == KeptPages(pages[..k])
        invariant -1 <= newCurrent < |kept|
      {
        assert pages[..k + 1][..k] == pages[..k];
        if !IsGenerated(pages[k]) {
          if k == current {
            newCurrent := |kept|;
          }
          kept := kept + [pages[k]];
        }
        k := k + 1;
      }
      assert pages[..k] == pages;
      pages, current := kept, newCurrent;
    }

    /** `regenerateAll`: progress 10, the removal, progress 20, then everything again. */
    method RegenerateAll(fontHost: FontHost, draw: DrawCall -> Drawing)
      requires Valid()
      modifies this
      ensures fonts == SelectFonts(old(fonts), fontHost)
      ensures paintStyles == old(paintStyles) + ColorStyles()
      ensures textStyles == old(textStyles) + TextStyles(fonts)
      ensures pages == KeptPages(old(pages)) + [Page(ScreensPageName, MainScreenNodes(fonts, draw) + DarkScreenNodes(fonts, draw))]
      ensures Valid() && current == |pages| - 1
      ensures progress == old(progress) + RegenerateProgress
      ensures closed == old(closed)
    {
      Post(10);
      RemoveGeneratedPages();
      Post(20);
      CreateEverything(fontHost, draw);
    }

    /** The box loop and the connector loops of `createFlowMap`, on the current page. */
    method DrawFlows(flows: seq<Flow>)
      requires 0 <= current < |pages|
      modifies this`pages
      ensures pages == Appended(old(pages), current, FlowNodesOf(flows, fonts))
    {
      DrawBoxes(flows);
      ghost var boxed := pages;
      AppendedNothing(pages, current);
      assert flows[..0] == [];
      var i := 0;
      while i < |flows|
        invariant 0 <= i <= |flows|
        invariant pages == Appended(boxed, current, Draw(Edges(flows[..i], flows)))
      {
        ghost var drawn := Draw(Edges(flows[..i], flows));
        ghost var more := EdgesFrom(flows[i], flows[i].connects, flows);
        DrawConnectors(flows, i);
        AppendedTwice(boxed, current, drawn, Draw(more));
        assert flows[..i + 1][..i] == flows[..i];
        assert Edges(flows[..i + 1], flows) == Edges(flows[..i], flows) + more;
        DrawAppend(Edges(flows[..i], flows), more);
        i := i + 1;
      }
      assert flows[..i] == flows;
      AppendedTwice(old(pages), current, FlowBoxes(flows, fonts), Draw(Edges(flows, flows)));
    }

    /** The box loop: one box per flow, in order. */
    method DrawBoxes(flows: seq<Flow>)
      requires 0 <= current < |pages|
      modifies this`pages
      ensures pages == Appended(old(pages), current, FlowBoxes(flows, fonts))
    {
      ghost var boxes := FlowBoxes(flows, fonts);
      AppendedNothing(pages, current);
      var i := 0;
      while i < |flows|
        invariant 0 <= i <= |flows|
        invariant pages == Appended(old(pages), current, boxes[..i])
      {
        AddToCurrentPage(FlowBox(flows[i], fonts));
        AppendedTwice(old(pages), current, boxes[..i], [boxes[i]]);
        PrefixSnoc(boxes, i);
        i := i + 1;
      }
      assert boxes[..i] == boxes;
    }

    /** The inner loop: the connectors of box `i`, one per target that names a box. */
    method DrawConnectors(flows: seq<Flow>, i: nat)
      requires 0 <= current < |pages| && i < |flows|
      modifies this`pages
      ensures pages == Appended(old(pages), current, Draw(EdgesFrom(flows[i], flows[i].connects, flows)))
    {
      var from := flows[i];
      AppendedNothing(pages, current);
      ghost var drawn: seq<Node> := [];
      var j := 0;
      while j < |from.connects|
        invariant 0 <= j <= |from.connects|
        invariant drawn == Draw(EdgesFrom(from, from.connects[..j], flows))
        invariant pages == Appended(old(pages), current, drawn)
      {
        var target := FindFlow(flows, from.connects[j]);
        EdgesFromStep(from, from.connects, j, flows, target);
        if target.Some? {
          DrawConnector(from, target.value);
          AppendedTwice(old(pages), current, drawn, Connector(from, target.value));
          drawn := drawn + Connector(from, target.value);
        } else {
          assert drawn + [] == drawn;
        }
        j := j + 1;
      }
      assert from.connects[..j] == from.connects;
    }

    /** The line, then the arrowhead. */
    method DrawConnector(from: Flow, to: Flow)
      requires 0 <= current < |pages|
      modifies this`pages
      ensures pages == Appended(old(pages), current, Connector(from, to))
    {
      var connector := Connector(from, to);
      AddToCurrentPage(connector[0]);
      AddToCurrentPage(connector[1]);
      AppendedTwice(old(pages), current, [connector[0]], [connector[1]]);
      assert [connector[0]] + [connector[1]] == connector;
    }

    /** `createFlowMap`: a new current page with the boxes, then the connectors, progress 20 and 100. */
    method CreateFlowMap()
      modifies this`pages, this`current, this`progress
      ensures pages == old(pages) + [Page(FlowPageName, FlowPageNodes(fonts))]
      ensures current == |pages| - 1
      ensures progress == old(progress) + FlowMapProgress
    {
      Post(20);
      CreateCurrentPage(FlowPageName);
      ghost var withPage := pages;
      DrawFlows(Flows);
      assert [] + FlowPageNodes(fonts) == FlowPageNodes(fonts);
      assert pages == withPage[current := Page(FlowPageName, FlowPageNodes(fonts))];
      Post(100);
    }

    /** `figma.ui.onmessage`: one batch per recognised message type; any other type changes nothing. */
    method HandleMessage(messageType: string, fontHost: FontHost, draw: DrawCall -> Drawing)
      requires Valid()
      modifies this
      ensures Valid()
      ensures ParseCommand(messageType) == Other || ParseCommand(messageType) == Close ==>
        pages == old(pages) && current == old(current) && fonts == old(fonts) && progress == old(progress) &&
        paintStyles == old(paintStyles) && textStyles == old(textStyles)
      ensures ParseCommand(messageType) == Close ==> closed
      ensures ParseCommand(messageType) != Close ==> closed == old(closed)
      ensures ParseCommand(messageType) == CreateAll || ParseCommand(messageType) == CreateStyles ||
              ParseCommand(messageType) == Regenerate ==>
        fonts == SelectFonts(old(fonts), fontHost) &&
        paintStyles == old(paintStyles) + ColorStyles() && textStyles == old(textStyles) + TextStyles(fonts)
      ensures ParseCommand(messageType) == CreateAll ==>
        pages == old(pages) + [Page(ScreensPageName, MainScreenNodes(fonts, draw) + DarkScreenNodes(fonts, draw))] &&
        current == |pages| - 1 && progress == old(progress) + EverythingProgress
      ensures ParseCommand(messageType) == CreateStyles ==>
        pages == old(pages) && current == old(current) && progress == old(progress) + StylesOnlyProgress
      ensures ParseCommand(messageType) == Regenerate ==>
        pages == KeptPages(old(pages)) + [Page(ScreensPageName, MainScreenNodes(fonts, draw) + DarkScreenNodes(fonts, draw))] &&
        current == |pages| - 1 && progress == old(progress) + RegenerateProgress
      ensures ParseCommand(messageType) == CreateFlow ==>
        pages == old(pages) + [Page(FlowPageName, FlowPageNodes(fonts))] && current == |pages| - 1 &&
        fonts == old(fonts) && paintStyles == old(paintStyles) && textStyles == old(textStyles) &&
        progress == old(progress) + FlowMapProgress
    {
      match ParseCommand(messageType)
      case CreateAll => CreateEverything(fontHost, draw);
      case CreateStyles => CreateStylesOnly(fontHost);
      case Regenerate => RegenerateAll(fontHost, draw);
      case CreateFlow => CreateFlowMap();
      case Close => closed := true;
      case Other =>
    }
  }

  // ---------------------------------------------------------------------------
  // Properties

  /** No two grid positions overlap: 455 apart leaves room for a 375-wide frame, 900 for an 812-high one. */
  lemma GridNoOverlap(i: nat, j: nat)
    requires i != j
    ensures GridX(i) + 375 <= GridX(j) || GridX(j) + 375 <= GridX(i) ||
            GridY(i) + 812 <= GridY(j) || GridY(j) + 812 <= GridY(i)
  {
    if i % 4 == j % 4 {
      assert i / 4 != j / 4 by {
        assert i == 4 * (i / 4) + i % 4 && j == 4 * (j / 4) + j % 4;
      }
    }
  }

  /** The dark row sits below the last row of the thirty screens, with room to spare. */
  lemma DarkRowBelowGrid(i: nat)
    requires i < |MainScreens|
    ensures GridY(i) + 812 < DarkRowY
  {
    assert i / 4 <= 7;
  }

  lemma {:induction false} MulMonotone(x: int, y: int, n: nat)
    ensures x <= y ==> x * n <= y * n
    decreases n
  {
    if n > 0 {
      MulMonotone(x, y, n - 1);
    }
  }

  lemma DivMonotone(a: nat, b: nat, n: nat)
    requires a <= b && n > 0
    ensures a / n <= b / n
  {
    var qa, qb := a / n, b / n;
    MulMonotone(qb + 1, qa, n);
    assert qa * n <= a;
    assert b < (qb + 1) * n;
  }

  /** The per-screen progress climbs from 40 towards, but below, 80. */
  lemma ProgressStreamClimbs(n: nat)
    ensures NonDecreasing(ProgressStream(n))
    ensures forall i :: 0 <= i < n ==> 40 <= ProgressStream(n)[i] < 80
  {
    var s := ProgressStream(n);
    forall i, j | 0 <= i <= j < n
      ensures s[i] <= s[j]
    {
      DivMonotone(40 * i, 40 * j, n);
    }
    forall i | 0 <= i < n
      ensures 40 <= s[i] < 80
    {
      DivMonotone(40 * i, 40 * n - 1, n);
    }
  }

  lemma NonDecreasingConcat(a: seq<int>, b: seq<int>)
    requires NonDecreasing(a) && NonDecreasing(b)
    requires a != [] && b != [] ==> a[|a| - 1] <= b[0]
    ensures NonDecreasing(a + b)
  {
    forall i, j | 0 <= i <= j < |a + b|
      ensures (a + b)[i] <= (a + b)[j]
    {
      if i < |a| && j >= |a| {
        assert a[i] <= a[|a| - 1];
      }
    }
  }

  /** `createEverything` never moves the bar backwards: 36 messages, from 5 to 100. */
  lemma EverythingProgressMonotone()
    ensures |EverythingProgress| == 36
    ensures EverythingProgress[0] == 5 && EverythingProgress[35] == 100
    ensures NonDecreasing(EverythingProgress)
  {
    var stream := ScreenProgressStream;
    ProgressStreamClimbs(|MainScreens|);
    var head: seq<int> := [5, 15, 25, 40];
    NonDecreasingConcat(head, stream);
    NonDecreasingConcat(head + stream, [85, 100]);
  }

  /** `regenerateAll` does move it backwards: 20 after the removal, then 5 when everything starts over. */
  lemma RegenerateProgressRestarts()
    ensures RegenerateProgress[1] == 20 && RegenerateProgress[2] == 5
    ensures !NonDecreasing(RegenerateProgress)
  {
  }

  /** The three heading styles use the bold font, the other three the regular one. */
  lemma TextStyleFonts(fonts: FontPair, i: nat)
    requires i < |TextStyles(fonts)|
    ensures TextStyles(fonts)[i].font == if i < 3 then fonts.bold else fonts.regular
  {
  }

  /** "DDA Mobile" starts right after the phone emoji and the space. */
  lemma ScreensPageMarked()
    ensures IsGenerated(Page(ScreensPageName, []))
  {
    assert ScreensPageName == "📱 " + GeneratedMarker + " — All Screens";
    assert ScreensPageName[2..12] == GeneratedMarker;
    ContainsAt(ScreensPageName, GeneratedMarker, 2);
  }

  /** Both generated page names include "DDA Mobile", so `regenerateAll` removes both kinds of page. */
  lemma GeneratedNamesMarked()
    ensures IsGenerated(Page(ScreensPageName, [])) && IsGenerated(Page(FlowPageName, []))
  {
    ScreensPageMarked();
    FlowPageMarked();
  }

  /** In the flow page's name "DDA Mobile" follows the map emoji, its variation selector and the space. */
  lemma FlowPageMarked()
    ensures IsGenerated(Page(FlowPageName, []))
  {
    assert FlowPageName == "🗺️ " + GeneratedMarker + " — Flow Map";
    assert FlowPageName[3..13] == GeneratedMarker;
    ContainsAt(FlowPageName, GeneratedMarker, 3);
  }

  /** After `regenerateAll` the only page whose name includes "DDA Mobile" is the new screens page, which is last. */
  lemma RegenerateLeavesOneGenerated(old_pages: seq<Page>, nodes: seq<Node>)
    ensures var ps := KeptPages(old_pages) + [Page(ScreensPageName, nodes)];
      IsGenerated(ps[|ps| - 1]) && forall k :: 0 <= k < |ps| - 1 ==> !IsGenerated(ps[k])
  {
    var kept := KeptPages(old_pages);
    ScreensPageMarked();
    forall k | 0 <= k < |kept|
      ensures !IsGenerated(kept[k])
    {
      assert kept[k] in kept;
    }
  }

  /** Removing the generated pages a second time removes nothing more. */
  lemma {:induction false} KeptPagesIdempotent(pages: seq<Page>)
    ensures KeptPages(KeptPages(pages)) == KeptPages(pages)
  {
    var kept := KeptPages(pages);
    KeptNoneGenerated(kept);
  }

  lemma {:induction false} KeptNoneGenerated(pages: seq<Page>)
    requires forall k :: 0 <= k < |pages| ==> !IsGenerated(pages[k])
    ensures KeptPages(pages) == pages
    decreases |pages|
  {
    if pages != [] {
      KeptNoneGenerated(pages[..|pages| - 1]);
      assert pages[..|pages| - 1] + [pages[|pages| - 1]] == pages;
    }
  }
}
