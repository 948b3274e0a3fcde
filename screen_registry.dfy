/**
 * The screen catalog and `createScreenDesign`: each descriptor's design key selects a
 * builder that fills one screen frame in place. The two home builders, the eleven
 * placeholder builders and `createDefaultDesign` are modelled concretely; the other
 * seventeen builders are drawn by the host (`Drawing`), which may append some nodes and
 * then throw, in which case the default design is appended after what is already there.
 */
module ScreenRegistry {
  import opened Wrappers
  import opened HexColor
  import opened FigmaNodes

  /**
   * One entry of a screen list. The dark variants carry no category, which a JavaScript
   * template literal prints as "undefined"; the main screens carry no `isDark`, which the
   * builders' default parameter turns into `false`.
   */
  datatype Descriptor = Descriptor(name: string, category: Option<string>, design: string, isDark: bool)

  function MainScreen(name: string, category: string, design: string): Descriptor {
    Descriptor(name, Some(category), design, false)
  }

  /** The thirty screens of the main page, in creation order. */
  const MainScreens: seq<Descriptor> := [
    MainScreen("01. Login", "Auth", "login"),
    MainScreen("02. Onboarding 1", "Auth", "onboarding1"),
    MainScreen("03. Onboarding 2", "Auth", "onboarding2"),
    MainScreen("04. Onboarding 3", "Auth", "onboarding3"),
    MainScreen("05. Home (No Package)", "Main", "home-no-package"),
    MainScreen("06. Topics (Locked)", "Main", "topics-locked"),
    MainScreen("07. Store", "Main", "store"),
    MainScreen("08. More Menu", "Main", "more"),
    MainScreen("09. Packages List", "Purchase", "packages"),
    MainScreen("10. Package Details", "Purchase", "package-details"),
    MainScreen("11. Payment Methods", "Purchase", "payment"),
    MainScreen("12. Purchase Success", "Purchase", "success"),
    MainScreen("13. Home (Premium)", "Premium", "home-premium"),
    MainScreen("14. Topics (Unlocked)", "Premium", "topics-unlocked"),
    MainScreen("15. Lesson View", "Learning", "lesson"),
    MainScreen("16. Video Player", "Learning", "video"),
    MainScreen("17. Practice Questions", "Learning", "practice"),
    MainScreen("18. Teacher Contact", "Learning", "teacher"),
    MainScreen("19. Exam Config", "Exam", "exam-config"),
    MainScreen("20. Exam Running", "Exam", "exam-running"),
    MainScreen("21. Exam Results (Pass)", "Exam", "results-pass"),
    MainScreen("22. Exam Results (Fail)", "Exam", "results-fail"),
    MainScreen("23. Mistakes Review", "Exam", "mistakes"),
    MainScreen("24. AI Chat", "Support", "ai-chat"),
    MainScreen("25. Chat History", "Support", "chat-history"),
    MainScreen("26. Notifications", "Support", "notifications"),
    MainScreen("27. Settings", "Profile", "settings"),
    MainScreen("28. Profile Edit", "Profile", "profile-edit"),
    MainScreen("29. Transactions", "Profile", "transactions"),
    MainScreen("30. Balance Top-up", "Profile", "balance")
  ]

  /** The four dark variants. */
  const DarkScreens: seq<Descriptor> := [
    Descriptor("31. Home — Dark", None, "home-premium", true),
    Descriptor("32. Topics — Dark", None, "topics-unlocked", true),
    Descriptor("33. Lesson — Dark", None, "lesson", true),
    Descriptor("34. Settings — Dark", None, "settings", true)
  ]

  // ---------------------------------------------------------------------------
  // Builders

  /** The keys whose builders draw a screen this model does not spell out. */
  const DrawnKeys: set<string> := {
    "login", "onboarding1", "onboarding2", "onboarding3", "topics-locked", "topics-unlocked",
    "store", "more", "packages", "lesson", "practice", "exam-config", "exam-running",
    "results-pass", "results-fail", "ai-chat", "settings"
  }

  datatype Builder =
    | Home(premium: bool)
    | Placeholder(title: string, category: string)
    | Drawn
    | Unknown

  /** The `switch` of `createScreenDesign` (figma-plugin/code.js lines 356-450). */
  function BuilderFor(design: string): Builder {
    if design == "home-no-package" then Home(false)
    else if design == "home-premium" then Home(true)
    else if design == "package-details" then Placeholder("Package Details", "Purchase")
    else if design == "payment" then Placeholder("Payment Methods", "Purchase")
    else if design == "success" then Placeholder("Purchase Success", "Purchase")
    else if design == "video" then Placeholder("Video Player", "Learning")
    else if design == "teacher" then Placeholder("Teacher Contact", "Learning")
    else if design == "chat-history" then Placeholder("Chat History", "Support")
    else if design == "notifications" then Placeholder("Notifications", "Support")
    else if design == "profile-edit" then Placeholder("Profile Edit", "Profile")
    else if design == "transactions" then Placeholder("Transactions", "Profile")
    else if design == "balance" then Placeholder("Balance Top-up", "Profile")
    else if design == "mistakes" then Placeholder("Mistakes Review", "Exam")
    else if design in DrawnKeys then Drawn
    else Unknown
  }

  /** What a host-drawn builder is asked to draw: its key, its theme, and the fonts in force. */
  datatype DrawCall = DrawCall(design: string, isDark: bool, fonts: FontPair)

  /**
   * What a host-drawn builder did to the frame: the background it set (if any), the nodes it
   * appended, and whether it threw afterwards.
   */
  datatype Drawing = Drawing(fill: Option<Rgb>, appended: seq<Node>, throws: bool)

  /** The net effect of a design on its frame: a new background (if any) and the appended nodes. */
  datatype Effect = Effect(fill: Option<Rgb>, appended: seq<Node>)

  const DefaultBackground := "#f9fafb"

  /** What `${screen.category}` prints. */
  function CategoryLabel(category: Option<string>): string {
    match category
    case Some(c) => c
    case None => "undefined"
  }

  /** The two text nodes of `createDefaultDesign`: the name, and the category under a phone emoji. */
  function DefaultChildren(name: string, category: Option<string>, fonts: FontPair): (nodes: seq<Node>)
    ensures |nodes| == 2 && nodes[0].Text? && nodes[1].Text?
    ensures nodes[0].characters == name && nodes[0].x == 20 && nodes[0].y == 40
    ensures nodes[1].characters == "📱 " + CategoryLabel(category) && nodes[1].x == 20 && nodes[1].y == 70
  {
    [Text(name, 20, 40, 18, fonts.bold, Solid("#111827")),
     Text("📱 " + CategoryLabel(category), 20, 70, 14, fonts.regular, Solid("#6b7280"))]
  }

  function DefaultEffect(name: string, category: Option<string>, fonts: FontPair): Effect {
    Effect(Solid(DefaultBackground), DefaultChildren(name, category, fonts))
  }

  // ---------------------------------------------------------------------------
  // The two home screens

  const Greeting := "Salam, Tural 👋"

  function HomeBackground(isDark: bool): string {
    if isDark then "#111827" else "#f9fafb"
  }

  /** The package-status card: a blue notice without a package, a green badge with premium. */
  function StatusCard(premium: bool, fonts: FontPair): Node {
    Frame(UnnamedFrame, 20, 80, 335, 60, Solid(if premium then "#f0fdf4" else "#dbeafe"), None, 12,
      [Text(if premium then "👑 Premium üzv - Bütün funksiyalar aktiv" else "📦 Aktiv paketiniz yoxdur",
            16, 23, 14, if premium then fonts.bold else fonts.regular,
            Solid(if premium then "#065f46" else "#1e40af"))])
  }

  /** The progress percentage each home screen shows. */
  function HomeProgress(premium: bool): nat {
    if premium then 78 else 42
  }

  /** The filled part of the 303-wide progress bar, as the builders hard-code it. */
  function ProgressFillWidth(premium: bool): nat {
    if premium then 236 else 127
  }

  function ProgressCard(premium: bool, isDark: bool, fonts: FontPair): Node {
    Frame(UnnamedFrame, 20, 160, 335, 80, Solid(if isDark then "#1f2937" else "#ffffff"), None, 12,
      [Text(if premium then "İrəliləyiş: 78%" else "İrəliləyiş: 42%", 16, 16, 14, fonts.regular,
            Solid(if isDark then "#f9fafb" else "#111827")),
       Frame(UnnamedFrame, 16, 40, 303, 8, Solid("#e5e7eb"), None, 4,
         [Frame(UnnamedFrame, 0, 0, ProgressFillWidth(premium), 8, Solid(BrandHex), None, 4, [])])])
  }

  /** The four actions; without a package all but the quick test are locked. */
  function HomeActions(premium: bool): seq<Action> {
    [Action("🎬 Video dərslər", !premium), Action("📝 Sürətli test", false),
     Action("📚 Təlim mövzuları", !premium), Action("🧪 İmtahan", !premium)]
  }

  /** The header and the two cards above the action grid. */
  function HomeTop(premium: bool, isDark: bool, fonts: FontPair): seq<Node> {
    [Header(Greeting, isDark, fonts), StatusCard(premium, fonts), ProgressCard(premium, isDark, fonts)]
  }

  /** The nodes a home builder appends, in order. */
  function HomeChildren(premium: bool, isDark: bool, fonts: FontPair): seq<Node> {
    HomeTop(premium, isDark, fonts) + ActionGrid(HomeActions(premium), isDark, fonts) + [TabBar(0, isDark, fonts)]
  }

  // ---------------------------------------------------------------------------
  // The dispatch, as a specification

  /** The effect of `createScreenDesign` for descriptor `d`, with host-drawn builders given by `draw`. */
  function DesignEffect(d: Descriptor, fonts: FontPair, draw: DrawCall -> Drawing): (e: Effect)
    ensures BuilderFor(d.design) == Unknown ==>
      e == Effect(Solid(DefaultBackground), DefaultChildren(d.name, d.category, fonts))
    ensures BuilderFor(d.design) == Drawn && draw(DrawCall(d.design, d.isDark, fonts)).throws ==>
      e == Effect(Solid(DefaultBackground),
                  draw(DrawCall(d.design, d.isDark, fonts)).appended + DefaultChildren(d.name, d.category, fonts))
  {
    BuilderEffect(BuilderFor(d.design), d, fonts, draw)
  }

  /** The effect of running builder `b` for descriptor `d`. */
  function BuilderEffect(b: Builder, d: Descriptor, fonts: FontPair, draw: DrawCall -> Drawing): (e: Effect)
    ensures b.Placeholder? || b.Unknown? ==> e.fill == Solid(DefaultBackground) && |e.appended| == 2
    ensures b.Drawn? ==> var partial := draw(DrawCall(d.design, d.isDark, fonts)).appended;
      |partial| <= |e.appended| && e.appended[..|partial|] == partial
  {
    match b
    case Home(premium) => Effect(Solid(HomeBackground(d.isDark)), HomeChildren(premium, d.isDark, fonts))
    case Placeholder(title, category) => DefaultEffect(title, Some(category), fonts)
    case Unknown => DefaultEffect(d.name, d.category, fonts)
    case Drawn =>
      var r := draw(DrawCall(d.design, d.isDark, fonts));
      if r.throws then Effect(Solid(DefaultBackground), r.appended + DefaultChildren(d.name, d.category, fonts))
      else Effect(r.fill, r.appended)
  }

  // ---------------------------------------------------------------------------
  // The builders, as methods on the frame

  /** `createDefaultDesign`: resets the background and appends the two text nodes. */
  method CreateDefaultDesign(frame: ScreenFrame, name: string, category: Option<string>, fonts: FontPair)
    modifies frame`fill, frame`children
    ensures frame.fill == Solid(DefaultBackground)
    ensures frame.children == old(frame.children) + DefaultChildren(name, category, fonts)
  {
    frame.SetFill(HexToRgb(DefaultBackground));
    frame.AppendChild(Text(name, 20, 40, 18, fonts.bold, Solid("#111827")));
    frame.AppendChild(Text("📱 " + CategoryLabel(category), 20, 70, 14, fonts.regular, Solid("#6b7280")));
  }

  /** `createHomeNoPackageDesign` and `createHomePremiumDesign`, which differ only in their constants. */
  method CreateHomeDesign(frame: ScreenFrame, premium: bool, isDark: bool, fonts: FontPair)
    modifies frame`fill, frame`children
    ensures frame.fill == Solid(HomeBackground(isDark))
    ensures frame.children == old(frame.children) + HomeChildren(premium, isDark, fonts)
  {
    ghost var before := frame.children;
    frame.SetFill(HexToRgb(HomeBackground(isDark)));
    AppendHomeCards(frame, premium, isDark, fonts);
    AppendActionGrid(frame, HomeActions(premium), CardMaker(isDark, fonts));
    var tabBar := CreateTabBar(0, isDark, fonts);
    frame.AppendChild(tabBar);
    AppendThree(before, HomeTop(premium, isDark, fonts), ActionGrid(HomeActions(premium), isDark, fonts), [tabBar]);
  }

  lemma AppendThree<T>(s: seq<T>, a: seq<T>, b: seq<T>, c: seq<T>)
    ensures s + a + b + c == s + (a + b + c)
  {
  }

  /** The header and the two cards above the action grid. */
  method AppendHomeCards(frame: ScreenFrame, premium: bool, isDark: bool, fonts: FontPair)
    modifies frame`children
    ensures frame.children == old(frame.children) + HomeTop(premium, isDark, fonts)
  {
    AppendInOrder(frame, Header(Greeting, isDark, fonts), StatusCard(premium, fonts), ProgressCard(premium, isDark, fonts));
  }

  /** Three `appendChild` calls in a row. */
  method AppendInOrder(frame: ScreenFrame, first: Node, second: Node, third: Node)
    modifies frame`children
    ensures frame.children == old(frame.children) + [first, second, third]
  {
    frame.AppendChild(first);
    frame.AppendChild(second);
    frame.AppendChild(third);
  }

  /** A host-drawn builder: its background and nodes, then the default design if it threw. */
  method RunDrawing(frame: ScreenFrame, d: Descriptor, r: Drawing, fonts: FontPair)
    modifies frame`fill, frame`children
    ensures frame.fill == (if r.throws then Solid(DefaultBackground) else if r.fill.Some? then r.fill else old(frame.fill))
    ensures frame.children == old(frame.children) + r.appended
      + (if r.throws then DefaultChildren(d.name, d.category, fonts) else [])
  {
    if r.fill.Some? {
      frame.SetFill(r.fill.value);
    }
    var i := 0;
    while i < |r.appended|
      invariant 0 <= i <= |r.appended|
      invariant frame.children == old(frame.children) + r.appended[..i]
      invariant frame.fill == if r.fill.Some? then r.fill else old(frame.fill)
    {
      frame.AppendChild(r.appended[i]);
      i := i + 1;
    }
    assert r.appended[..i] == r.appended;
    if r.throws {
      CreateDefaultDesign(frame, d.name, d.category, fonts);
    }
  }

  /** `createScreenDesign`: the frame ends up as `DesignEffect` describes. */
  method CreateScreenDesign(frame: ScreenFrame, d: Descriptor, fonts: FontPair, draw: DrawCall -> Drawing)
    modifies frame`fill, frame`children
    ensures var e := DesignEffect(d, fonts, draw);
      frame.fill == (if e.fill.Some? then e.fill else old(frame.fill)) &&
      frame.children == old(frame.children) + e.appended
  {
    RunBuilder(frame, BuilderFor(d.design), d, fonts, draw);
  }

  /** The branches of the `switch`: each runs its builder on the frame. */
  method RunBuilder(frame: ScreenFrame, b: Builder, d: Descriptor, fonts: FontPair, draw: DrawCall -> Drawing)
    modifies frame`fill, frame`children
    ensures var e := BuilderEffect(b, d, fonts, draw);
      frame.fill == (if e.fill.Some? then e.fill else old(frame.fill)) &&
      frame.children == old(frame.children) + e.appended
  {
    match b
    case Home(premium) =>
      CreateHomeDesign(frame, premium, d.isDark, fonts);
    case Placeholder(title, category) =>
      CreateDefaultDesign(frame, title, Some(category), fonts);
    case Unknown =>
      CreateDefaultDesign(frame, d.name, d.category, fonts);
    case Drawn =>
      RunDrawing(frame, d, draw(DrawCall(d.design, d.isDark, fonts)), fonts);
  }

  // ---------------------------------------------------------------------------
  // Properties of the dispatch

  /** Every design key of both screen lists has its own `case`: none reaches the `default` branch. */
  lemma CatalogFullyHandled()
    ensures |MainScreens| == 30 && |DarkScreens| == 4
    ensures forall i :: 0 <= i < |MainScreens| ==> BuilderFor(MainScreens[i].design) != Unknown
    ensures forall i :: 0 <= i < |DarkScreens| ==> BuilderFor(DarkScreens[i].design) != Unknown
  {
    forall i | 0 <= i < |MainScreens|
      ensures BuilderFor(MainScreens[i].design) != Unknown
    {
      if i < 10 {
        MainKeyHandled(i, 0);
      } else if i < 20 {
        MainKeyHandled(i, 10);
      } else {
        MainKeyHandled(i, 20);
      }
    }
    forall i | 0 <= i < |DarkScreens|
      ensures BuilderFor(DarkScreens[i].design) != Unknown
    {
      CaseKeyHandled(DarkScreens[i].design);
    }
  }

  lemma MainKeyHandled(i: nat, lo: nat)
    requires lo <= i < lo + 10 && i < 30 && lo in {0, 10, 20}
    ensures BuilderFor(MainScreens[i].design) != Unknown
  {
    assert MainScreens[i].design in HandledKeys;
    CaseKeyHandled(MainScreens[i].design);
  }

  /** The keys of the `switch`, each of which selects a builder other than the default. */
  const HandledKeys: set<string> := DrawnKeys + SwitchKeys

  /** The keys the `switch` sends to the home builders and to the placeholders. */
  const SwitchKeys: set<string> := {
    "home-no-package", "home-premium", "package-details", "payment", "success", "video", "teacher",
    "chat-history", "notifications", "profile-edit", "transactions", "balance", "mistakes"
  }

  /** A key reaches the `default` branch exactly when it is none of the thirty `case` labels. */
  lemma KeyHandled(k: string)
    ensures BuilderFor(k) != Unknown <==> k in HandledKeys
  {
    if k in HandledKeys {
      CaseKeyHandled(k);
    } else {
      OtherKeyUnknown(k);
    }
  }

  /** The host draws a key exactly when it is one of the seventeen labels without a builder of their own here. */
  lemma KeyDrawn(k: string)
    ensures BuilderFor(k) == Drawn <==> k in DrawnKeys
  {
    if k in DrawnKeys {
      DrawnKeyDrawn(k);
    } else {
      assert BuilderFor(k) != Drawn;
    }
  }

  lemma DrawnKeyDrawn(k: string)
    requires k in DrawnKeys
    ensures BuilderFor(k) == Drawn
  {
    assert k !in SwitchKeys;
  }

  lemma CaseKeyHandled(k: string)
    requires k in HandledKeys
    ensures BuilderFor(k) != Unknown
  {
    if k in SwitchKeys {
      SwitchKeyHandled(k);
    }
  }

  lemma SwitchKeyHandled(k: string)
    requires k in SwitchKeys
    ensures BuilderFor(k).Home? || BuilderFor(k).Placeholder?
  {
  }

  lemma OtherKeyUnknown(k: string)
    requires k !in HandledKeys
    ensures BuilderFor(k) == Unknown
  {
  }

  /** An unknown key gets exactly the default design: the descriptor's own name and category. */
  lemma UnknownKeyGetsDefault(d: Descriptor, fonts: FontPair, draw: DrawCall -> Drawing)
    requires BuilderFor(d.design) == Unknown
    ensures DesignEffect(d, fonts, draw).fill == Solid(DefaultBackground)
    ensures DesignEffect(d, fonts, draw).appended == DefaultChildren(d.name, d.category, fonts)
  {
  }

  /**
   * A builder that throws keeps what it had already appended; the two default text nodes
   * follow, and the background is reset.
   */
  lemma ThrowingBuilderKeepsPrefix(d: Descriptor, fonts: FontPair, draw: DrawCall -> Drawing)
    requires BuilderFor(d.design) == Drawn && draw(DrawCall(d.design, d.isDark, fonts)).throws
    ensures var partial := draw(DrawCall(d.design, d.isDark, fonts)).appended;
      var e := DesignEffect(d, fonts, draw);
      |e.appended| == |partial| + 2 &&
      e.appended[..|partial|] == partial &&
      e.appended[|partial|..] == DefaultChildren(d.name, d.category, fonts) &&
      e.fill == Solid(DefaultBackground)
  {
    var partial := draw(DrawCall(d.design, d.isDark, fonts)).appended;
    var e := DesignEffect(d, fonts, draw);
    assert e.appended == partial + DefaultChildren(d.name, d.category, fonts);
  }

  /**
   * The eleven placeholder keys show their own fixed title and category, whatever the
   * descriptor's name, category and theme.
   */
  lemma PlaceholdersIgnoreDescriptor(d: Descriptor, d': Descriptor, fonts: FontPair, draw: DrawCall -> Drawing)
    requires BuilderFor(d.design).Placeholder? && d'.design == d.design
    ensures DesignEffect(d, fonts, draw) == DesignEffect(d', fonts, draw)
    ensures DesignEffect(d, fonts, draw).appended[0].characters == BuilderFor(d.design).title
  {
  }

  /** The placeholder for `package-details` is titled "Package Details", not the catalog's "10. Package Details". */
  lemma PlaceholderTitleDiffersFromCatalog(fonts: FontPair, draw: DrawCall -> Drawing)
    ensures MainScreens[9].design == "package-details"
    ensures DesignEffect(MainScreens[9], fonts, draw).appended[0].characters == "Package Details"
    ensures DesignEffect(MainScreens[9], fonts, draw).appended[0].characters != MainScreens[9].name
  {
    assert BuilderFor("package-details") == Placeholder("Package Details", "Purchase");
  }

  /** A dark variant whose builder throws labels its category "undefined". */
  lemma DarkFallbackPrintsUndefined(k: nat, fonts: FontPair, draw: DrawCall -> Drawing)
    requires k < |DarkScreens|
    requires BuilderFor(DarkScreens[k].design) == Drawn
    requires draw(DrawCall(DarkScreens[k].design, true, fonts)).throws
    ensures var e := DesignEffect(DarkScreens[k], fonts, draw);
      e.appended[|e.appended| - 1].characters == "📱 undefined"
  {
  }

  /**
   * The home screens: header, status card, progress card, four action cards, tab bar. Without
   * a package, exactly the cards other than the quick test are locked (they carry the lock icon
   * as an extra child); with premium none is.
   */
  lemma HomeLayout(premium: bool, isDark: bool, fonts: FontPair)
    ensures var nodes := HomeChildren(premium, isDark, fonts);
      |nodes| == 8 &&
      nodes[7] == TabBar(0, isDark, fonts) &&
      forall k :: 3 <= k < 7 ==>
        nodes[k].Frame? && (|nodes[k].children| == 2 <==> !premium && k != 4)
  {
    forall k | 3 <= k < 7
      ensures var nodes := HomeChildren(premium, isDark, fonts);
        nodes[k].Frame? && (|nodes[k].children| == 2 <==> !premium && k != 4)
    {
      HomeCard(premium, isDark, fonts, k);
    }
  }

  /** Node `k` of a home screen, for `3 <= k < 7`, is action card `k - 3`. */
  lemma HomeCard(premium: bool, isDark: bool, fonts: FontPair, k: nat)
    requires 3 <= k < 7
    ensures var nodes := HomeChildren(premium, isDark, fonts);
      nodes[k].Frame? && (|nodes[k].children| == 2 <==> !premium && k != 4)
  {
    HomeChildAt(premium, isDark, fonts, k);
    ActionGridCard(HomeActions(premium), k - 3, isDark, fonts);
    assert HomeActions(premium)[k - 3].locked <==> !premium && k != 4;
  }

  lemma HomeChildAt(premium: bool, isDark: bool, fonts: FontPair, k: nat)
    requires 3 <= k < 7
    ensures HomeChildren(premium, isDark, fonts)[k] == ActionGrid(HomeActions(premium), isDark, fonts)[k - 3]
  {
    var top, cards := HomeTop(premium, isDark, fonts), ActionGrid(HomeActions(premium), isDark, fonts);
    assert |top| == 3 && |cards| == 4;
  }

  /** The printed percentages and the hard-coded bar widths agree: each fill is that share of 303, rounded down. */
  lemma ProgressBarMatchesLabel(premium: bool)
    ensures ProgressFillWidth(premium) == 303 * HomeProgress(premium) / 100
  {
  }
}
