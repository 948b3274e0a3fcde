/**
 * The Figma document as the plugin builds it: a tree of frames, text runs, lines and
 * triangles with integer geometry, plus the screen frame that a builder fills in place and
 * the shared sub-builders (header, header with back button, tab bar, button, action card).
 */
module FigmaNodes {
  import opened Wrappers
  import opened HexColor

  /** A Figma `FontName`. */
  datatype Font = Font(family: string, style: string)

  /** The plugin's process-wide `currentFont` and `boldFont`, as every builder reads them. */
  datatype FontPair = FontPair(regular: Font, bold: Font)

  const InitialFonts := FontPair(Font("Inter", "Regular"), Font("Inter", "Bold"))

  /**
   * A node of the document. `fill`/`stroke` are `None` where the plugin leaves Figma's default.
   * A frame the plugin does not name keeps Figma's default name "Frame".
   */
  datatype Node =
    | Frame(name: string, x: int, y: int, width: int, height: int,
            fill: Option<Rgb>, stroke: Option<Rgb>, cornerRadius: int, children: seq<Node>)
    | Text(characters: string, x: int, y: int, fontSize: int, font: Font, fill: Option<Rgb>)
    | Line(x: int, y: int, length: int, color: Rgb)
    | Triangle(x: int, y: int, size: int, color: Rgb)

  const UnnamedFrame := "Frame"

  function Solid(hex: string): Option<Rgb> {
    Some(HexToRgb(hex))
  }

  /** The top-level frame of one screen, which the screen builders populate in place. */
  class ScreenFrame {
    var name: string
    var x: int
    var y: int
    var width: int
    var height: int
    var fill: Option<Rgb>
    var cornerRadius: int
    var children: seq<Node>

    constructor (name: string, x: int, y: int, width: int, height: int, fill: Rgb, cornerRadius: int)
      ensures this.name == name && this.x == x && this.y == y
      ensures this.width == width && this.height == height
      ensures this.fill == Some(fill) && this.cornerRadius == cornerRadius && children == []
    {
      this.name, this.x, this.y := name, x, y;
      this.width, this.height := width, height;
      this.fill, this.cornerRadius := Some(fill), cornerRadius;
      children := [];
    }

    /** The frame as a node of its page. */
    function Value(): Node
      reads this
    {
      Frame(name, x, y, width, height, fill, None, cornerRadius, children)
    }

    method AppendChild(n: Node)
      modifies this`children
      ensures children == old(children) + [n]
    {
      children := children + [n];
    }

    method SetFill(c: Rgb)
      modifies this`fill
      ensures fill == Some(c)
    {
      fill := Some(c);
    }
  }

  // ---------------------------------------------------------------------------
  // Shared sub-builders

  function HeaderFrame(isDark: bool, children: seq<Node>): Node {
    Frame(UnnamedFrame, 0, 0, 375, 60,
          Solid(if isDark then "#1f2937" else "#ffffff"),
          Solid(if isDark then "#374151" else "#e5e7eb"), 0, children)
  }

  function HeaderTitle(title: string, x: int, isDark: bool, fonts: FontPair): Node {
    Text(title, x, 22, 16, fonts.bold, Solid(if isDark then "#f9fafb" else "#111827"))
  }

  /** `createHeader` (figma-plugin/code.js lines 2093-2112): a 375x60 bar with the bold title at (20, 22). */
  function Header(title: string, isDark: bool, fonts: FontPair): Node {
    HeaderFrame(isDark, [HeaderTitle(title, 20, isDark, fonts)])
  }

  /** Moves the first text child to `x` (the `children.find(child => child.type === 'TEXT')` step). */
  function MoveFirstText(children: seq<Node>, x: int): (r: seq<Node>)
    ensures |r| == |children|
  {
    if children == [] then []
    else if children[0].Text? then
      var t := children[0];
      [Text(t.characters, x, t.y, t.fontSize, t.font, t.fill)] + children[1..]
    else [children[0]] + MoveFirstText(children[1..], x)
  }

  function BackButton(isDark: bool, fonts: FontPair): Node {
    Frame(UnnamedFrame, 20, 12, 36, 36, Solid(if isDark then "#374151" else "#f3f4f6"), None, 8,
          [Text("←", 10, 10, 16, fonts.regular, Solid(if isDark then "#f9fafb" else "#374151"))])
  }

  /**
   * `createHeaderWithBack`: the same bar as `createHeader`, with the back button appended
   * after the title and the title moved from x = 20 to x = 70.
   */
  function HeaderWithBack(title: string, isDark: bool, fonts: FontPair): (h: Node)
    ensures h == HeaderFrame(isDark, [HeaderTitle(title, 70, isDark, fonts), BackButton(isDark, fonts)])
  {
    var header := Header(title, isDark, fonts);
    var withButton := header.children + [BackButton(isDark, fonts)];
    assert withButton[0] == HeaderTitle(title, 20, isDark, fonts) && withButton[1..] == [BackButton(isDark, fonts)];
    assert MoveFirstText(withButton, 70) == [HeaderTitle(title, 70, isDark, fonts)] + withButton[1..]
      == [HeaderTitle(title, 70, isDark, fonts), BackButton(isDark, fonts)];
    HeaderFrame(isDark, MoveFirstText(withButton, 70))
  }

  const TabLabels := ["🏠 Ana", "📚 Təlimlər", "🧪 İmtahan", "🛍️ Mağaza", "➕ Daha"]

  const BrandHex := "#22c55e"

  /** `hexToRgb(BrandHex)`, as `BrandColors` shows. */
  const BrandRgb := Rgb(34, 197, 94)

  /** The `i`-th label of the tab bar; only the active one is painted in the brand green. */
  function TabLabel(i: nat, activeIndex: int, isDark: bool, fonts: FontPair): Node
    requires i < |TabLabels|
  {
    Text(TabLabels[i], 15 + i * 75, 25, 10, fonts.regular,
         Solid(if i == activeIndex then BrandHex else if isDark then "#9ca3af" else "#6b7280"))
  }

  function TabBarFrame(labels: seq<Node>, isDark: bool): Node {
    Frame(UnnamedFrame, 0, 732, 375, 80, Solid(if isDark then "#1f2937" else "#ffffff"),
          Solid(if isDark then "#374151" else "#e5e7eb"), 0, labels)
  }

  /** The value `createTabBar` builds (figma-plugin/code.js lines 2143-2165). */
  function TabBar(activeIndex: int, isDark: bool, fonts: FontPair): Node {
    TabBarFrame(seq(|TabLabels|, i requires 0 <= i < |TabLabels| => TabLabel(i, activeIndex, isDark, fonts)), isDark)
  }

  /** `createTabBar`: appends the five labels one by one at x = 15 + 75 i. */
  method CreateTabBar(activeIndex: int, isDark: bool, fonts: FontPair) returns (bar: Node)
    ensures bar == TabBar(activeIndex, isDark, fonts)
  {
    var labels: seq<Node> := [];
    var i := 0;
    while i < |TabLabels|
      invariant 0 <= i <= |TabLabels|
      invariant |labels| == i
      invariant forall k :: 0 <= k < i ==> labels[k] == TabLabel(k, activeIndex, isDark, fonts)
    {
      labels := labels + [TabLabel(i, activeIndex, isDark, fonts)];
      i := i + 1;
    }
    bar := TabBarFrame(labels, isDark);
  }

  /** Colour values used by the builders, as bytes. */
  lemma BrandColors()
    ensures HexToRgb(BrandHex) == BrandRgb
    ensures HexToRgb("#9ca3af") == Rgb(156, 163, 175)
    ensures HexToRgb("#6b7280") == Rgb(107, 114, 128)
  {
    assert IsHexColor(BrandHex) && IsHexColor("#9ca3af") && IsHexColor("#6b7280");
  }

  /** Exactly the active tab is highlighted: five labels, evenly spaced, the brand colour only at `activeIndex`. */
  lemma TabBarHighlightsActive(activeIndex: int, isDark: bool, fonts: FontPair)
    ensures var bar := TabBar(activeIndex, isDark, fonts);
      |bar.children| == 5 &&
      forall i :: 0 <= i < 5 ==>
        bar.children[i].x == 15 + 75 * i &&
        (bar.children[i].fill == Solid(BrandHex) <==> i == activeIndex)
  {
    BrandColors();
  }

  /** `createButton`'s (background, text) colours: any variant other than primary and disabled is secondary. */
  function ButtonColors(variant: string, isDark: bool): (string, string) {
    if variant == "primary" then ("#22c55e", "#ffffff")
    else if variant == "disabled" then (if isDark then "#374151" else "#e5e7eb", if isDark then "#6b7280" else "#9ca3af")
    else (if isDark then "#374151" else "#f3f4f6", if isDark then "#f9fafb" else "#374151")
  }

  /** `createButton` (figma-plugin/code.js lines 2167-2199): a 295x44 frame with the bold label at (20, 15). */
  function Button(text: string, variant: string, isDark: bool, fonts: FontPair): Node {
    var (bg, fg) := ButtonColors(variant, isDark);
    Frame(UnnamedFrame, 0, 0, 295, 44, Solid(bg), None, 12, [Text(text, 20, 15, 14, fonts.bold, Solid(fg))])
  }

  /** A primary button looks the same in both themes; unknown variants render as secondary. */
  lemma ButtonVariants(text: string, variant: string, fonts: FontPair)
    ensures Button(text, "primary", true, fonts) == Button(text, "primary", false, fonts)
    ensures Button(text, "primary", false, fonts).fill == Solid("#22c55e")
    ensures Button(text, "primary", false, fonts).children[0].fill == Solid("#ffffff")
    ensures variant != "primary" && variant != "disabled" ==>
      forall isDark :: Button(text, variant, isDark, fonts) == Button(text, "secondary", isDark, fonts)
  {
  }

  /** An entry of the home screen's action grid. */
  datatype Action = Action(title: string, locked: bool)

  /** `createActionCard`: a 160x80 card; a locked card shows a lock icon before its title. */
  function ActionCard(action: Action, x: int, y: int, isDark: bool, fonts: FontPair): (card: Node)
    ensures card.Frame? && card.x == x && card.y == y && card.width == 160 && card.height == 80
    ensures |card.children| == if action.locked then 2 else 1
    ensures card.children[|card.children| - 1].Text? && card.children[|card.children| - 1].characters == action.title
  {
    var bg := if action.locked then (if isDark then "#374151" else "#f9fafb") else (if isDark then "#1f2937" else "#ffffff");
    var lock := if action.locked then [Text("🔒", 16, 16, 16, fonts.regular, None)] else [];
    var titleFill := if action.locked then "#9ca3af" else (if isDark then "#f9fafb" else "#374151");
    var title := Text(action.title, if action.locked then 45 else 16, 34, 12, fonts.bold, Solid(titleFill));
    Frame(UnnamedFrame, x, y, 160, 80, Solid(bg), None, 12, lock + [title])
  }

  /** `createActionCard` with the theme and fonts of the screen being built. */
  function CardMaker(isDark: bool, fonts: FontPair): (Action, int, int) -> Node {
    (action, x, y) => ActionCard(action, x, y, isDark, fonts)
  }

  /** The cards of the row that starts at action `i`: at most two, at x = 20 and x = 195, at height `y`. */
  function RowCards(actions: seq<Action>, i: nat, y: int, card: (Action, int, int) -> Node): (row: seq<Node>)
    requires i < |actions|
    ensures |row| == if i + 2 <= |actions| then 2 else 1
  {
    var first := [card(actions[i], 20, y)];
    if i + 1 < |actions| then first + [card(actions[i + 1], 195, y)] else first
  }

  /** The first `rows` rows of the grid, row `r` holding actions `2r` and `2r + 1` at y = 260 + 100r. */
  function GridRows(actions: seq<Action>, rows: nat, card: (Action, int, int) -> Node): (cards: seq<Node>)
    requires 2 * rows <= |actions| + 1
    ensures |cards| == if 2 * rows <= |actions| then 2 * rows else |actions|
  {
    if rows == 0 then []
    else GridRows(actions, rows - 1, card) + RowCards(actions, 2 * (rows - 1), 260 + (rows - 1) * 100, card)
  }

  /** All the cards of the home screen's action grid, in order. */
  function ActionGrid(actions: seq<Action>, isDark: bool, fonts: FontPair): (cards: seq<Node>)
    ensures |cards| == |actions|
  {
    GridRows(actions, (|actions| + 1) / 2, CardMaker(isDark, fonts))
  }

  /** Within the first `rows` rows, card `k` is the card of action `k`, in column `k % 2` of row `k / 2`. */
  lemma {:induction false} GridRowsAt(actions: seq<Action>, rows: nat, k: nat, card: (Action, int, int) -> Node)
    requires 2 * rows <= |actions| + 1 && k < |GridRows(actions, rows, card)|
    ensures GridRows(actions, rows, card)[k] == card(actions[k], 20 + (k % 2) * 175, 260 + (k / 2) * 100)
  {
    var r := rows - 1;
    var prefix := GridRows(actions, r, card);
    if k < |prefix| {
      GridRowsAt(actions, r, k, card);
    } else {
      var j := k - 2 * r;
      assert j < 2;
      assert k % 2 == j && k / 2 == r;
    }
  }

  /** The card at position `k` of the grid: the card of action `k`, in its column and row, with the lock icon iff the action is locked. */
  lemma ActionGridCard(actions: seq<Action>, k: nat, isDark: bool, fonts: FontPair)
    requires k < |actions|
    ensures ActionGrid(actions, isDark, fonts)[k] == ActionCard(actions[k], 20 + (k % 2) * 175, 260 + (k / 2) * 100, isDark, fonts)
    ensures var card := ActionGrid(actions, isDark, fonts)[k];
      card.Frame? && card.x == 20 + (k % 2) * 175 && card.y == 260 + (k / 2) * 100 &&
      |card.children| == (if actions[k].locked then 2 else 1)
  {
    GridRowsAt(actions, (|actions| + 1) / 2, k, CardMaker(isDark, fonts));
  }

  /** One more row of the grid. */
  lemma GridRowsNext(actions: seq<Action>, rows: nat, card: (Action, int, int) -> Node)
    requires 2 * rows < |actions|
    ensures GridRows(actions, rows + 1, card) == GridRows(actions, rows, card) + RowCards(actions, 2 * rows, 260 + rows * 100, card)
  {
  }

  lemma AppendAssoc<T>(a: seq<T>, b: seq<T>, c: seq<T>)
    ensures a + b + c == a + (b + c)
  {
  }

  /**
   * The nested grid loop of the home builders: rows of two, the row position `actionY`
   * advancing by 100 after each pair, each card made by `card` (`createActionCard`) and
   * appended to the screen frame.
   */
  method AppendActionGrid(frame: ScreenFrame, actions: seq<Action>, card: (Action, int, int) -> Node)
    modifies frame`children
    ensures frame.children == old(frame.children) + GridRows(actions, (|actions| + 1) / 2, card)
  {
    ghost var before := frame.children;
    ghost var rows := 0;
    var actionY := 260;
    var i := 0;
    while i < |actions|
      invariant i == 2 * rows && 2 * rows <= |actions| + 1
      invariant actionY == 260 + rows * 100
      invariant frame.children == before + GridRows(actions, rows, card)
    {
      ghost var grid := GridRows(actions, rows, card);
      AppendActionRow(frame, actions, i, actionY, card);
      GridRowsNext(actions, rows, card);
      AppendAssoc(before, grid, RowCards(actions, i, actionY, card));
      rows := rows + 1;
      actionY := actionY + 100;
      i := i + 2;
    }
    assert rows == (|actions| + 1) / 2;
  }

  /** The inner loop of the grid: the (at most two) cards of the row that starts at action `i`. */
  method AppendActionRow(frame: ScreenFrame, actions: seq<Action>, i: nat, actionY: int, card: (Action, int, int) -> Node)
    requires i < |actions|
    modifies frame`children
    ensures frame.children == old(frame.children) + RowCards(actions, i, actionY, card)
  {
    ghost var row := RowCards(actions, i, actionY, card);
    var j := 0;
    while j < 2 && i + j < |actions|
      invariant 0 <= j <= |row| && i + j <= |actions|
      invariant frame.children == old(frame.children) + row[..j]
    {
      assert row[j] == card(actions[i + j], 20 + j * 175, actionY);
      assert row[..j + 1] == row[..j] + [row[j]];
      frame.AppendChild(card(actions[i + j], 20 + j * 175, actionY));
      j := j + 1;
    }
    assert row[..j] == row;
  }
}
