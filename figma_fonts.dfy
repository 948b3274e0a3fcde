/**
 * `loadFonts`: which fonts the plugin's `currentFont` and `boldFont` end up naming after it
 * asks the host for the available fonts. Exact Inter Regular / Inter Bold entries win; without
 * Inter Regular the regular font falls back to the first entry of the first family present
 * among Roboto, Arial and Helvetica. Any error (listing or loading) is caught, leaving the
 * assignments made before it in place.
 */
module FigmaFonts {
  import opened Wrappers
  import opened FigmaNodes

  /** What the host answers: the font list (`None` when listing throws) and the fonts whose loading throws. */
  datatype FontHost = FontHost(listed: Option<seq<Font>>, unloadable: set<Font>)

  const InterRegular := Font("Inter", "Regular")
  const InterBold := Font("Inter", "Bold")
  const FallbackFamilies := ["Roboto", "Arial", "Helvetica"]

  /** `availableFonts.find(f => f.fontName.family === family)`: the first font of that family. */
  function FirstOfFamily(list: seq<Font>, family: string): (r: Option<Font>)
    ensures r.None? <==> forall i :: 0 <= i < |list| ==> list[i].family != family
    ensures r.Some? ==> r.value.family == family
    ensures r.Some? ==> exists i :: 0 <= i < |list| && list[i] == r.value && forall j :: 0 <= j < i ==> list[j].family != family
  {
    if list == [] then None
    else if list[0].family == family then Some(list[0])
    else
      var r := FirstOfFamily(list[1..], family);
      assert forall j :: 1 <= j < |list| ==> list[j] == list[1..][j - 1];
      if r.Some? then
        var i :| 0 <= i < |list[1..]| && list[1..][i] == r.value && forall j :: 0 <= j < i ==> list[1..][j].family != family;
        assert list[i + 1] == r.value;
        r
      else r
  }

  /** The first font of the first family in `families` that the list has at all. */
  function FirstFallback(list: seq<Font>, families: seq<string>): (r: Option<Font>)
    ensures r.Some? ==> r.value in list && r.value.family in families
  {
    if families == [] then None
    else match FirstOfFamily(list, families[0])
      case Some(f) => Some(f)
      case None => FirstFallback(list, families[1..])
  }

  /** The font pair after `loadFonts`, starting from `prev`. */
  function SelectFonts(prev: FontPair, host: FontHost): (r: FontPair)
    ensures r.regular == prev.regular ||
      (host.listed.Some? && r.regular in host.listed.value && (r.regular == InterRegular || r.regular.family in FallbackFamilies))
    ensures r.bold == prev.bold || (host.listed.Some? && r.bold == InterBold && InterBold in host.listed.value)
  {
    match host.listed
    case None => prev
    case Some(list) =>
      var hasRegular := InterRegular in list;
      var hasBold := InterBold in list;
      var afterRegular := if hasRegular then FontPair(InterRegular, prev.bold) else prev;
      if hasRegular && InterRegular in host.unloadable then afterRegular
      else
        var afterBold := if hasBold then FontPair(afterRegular.regular, InterBold) else afterRegular;
        if hasBold && InterBold in host.unloadable then afterBold
        else if hasRegular then afterBold
        else match FirstFallback(list, FallbackFamilies)
          case None => afterBold
          case Some(f) => FontPair(f, afterBold.bold)
  }

  /** With both Inter fonts listed and loadable, the pair is Inter Regular / Inter Bold whatever came before. */
  lemma InterPreferred(prev: FontPair, list: seq<Font>, unloadable: set<Font>)
    requires InterRegular in list && InterBold in list
    requires InterRegular !in unloadable && InterBold !in unloadable
    ensures SelectFonts(prev, FontHost(Some(list), unloadable)) == InitialFonts
  {
  }

  /** The bold font is only ever Inter Bold or the previous one: the fallback never touches it. */
  lemma BoldNeverFallsBack(prev: FontPair, host: FontHost)
    ensures var r := SelectFonts(prev, host);
      r.bold == prev.bold || (r.bold == InterBold && host.listed.Some? && InterBold in host.listed.value)
    ensures host.listed.Some? && InterBold !in host.listed.value ==> SelectFonts(prev, host).bold == prev.bold
  {
  }

  /** Without Inter Regular, the regular font is the first listed font of the first fallback family present. */
  lemma FallbackOrder(prev: FontPair, list: seq<Font>, unloadable: set<Font>, family: string, k: nat)
    requires InterRegular !in list && !(InterBold in list && InterBold in unloadable)
    requires k < |FallbackFamilies| && family == FallbackFamilies[k]
    requires forall j :: 0 <= j < k ==> FirstOfFamily(list, FallbackFamilies[j]).None?
    requires FirstOfFamily(list, family).Some?
    ensures SelectFonts(prev, FontHost(Some(list), unloadable)).regular == FirstOfFamily(list, family).value
  {
    if k > 0 {
      assert FirstFallback(list, FallbackFamilies) == FirstFallback(list, FallbackFamilies[1..]);
      if k > 1 {
        assert FirstFallback(list, FallbackFamilies[1..]) == FirstFallback(list, FallbackFamilies[2..]);
      }
    }
  }

  /** The list [Arial, Roboto] gives Roboto: family order, not list order, decides. */
  lemma RobotoBeforeArial(prev: FontPair)
    ensures var arial, roboto := Font("Arial", "Regular"), Font("Roboto", "Regular");
      SelectFonts(prev, FontHost(Some([arial, roboto]), {})) == FontPair(roboto, prev.bold)
  {
    var arial, roboto := Font("Arial", "Regular"), Font("Roboto", "Regular");
    var list := [arial, roboto];
    assert FirstOfFamily(list, "Roboto") == Some(roboto);
  }

  /** When nothing matches, or the list cannot be had, both fonts keep their previous values. */
  lemma NothingMatches(prev: FontPair, host: FontHost)
    requires host.listed.Some? ==>
      InterRegular !in host.listed.value && InterBold !in host.listed.value &&
      forall i :: 0 <= i < |host.listed.value| ==> host.listed.value[i].family !in FallbackFamilies
    ensures SelectFonts(prev, host) == prev
  {
    if host.listed.Some? {
      var list := host.listed.value;
      assert FirstOfFamily(list, "Roboto").None?;
      assert FirstOfFamily(list, "Arial").None?;
      assert FirstOfFamily(list, "Helvetica").None?;
      assert FallbackFamilies[1..][1..][1..] == [];
    }
  }

  /** A failure to load Inter Regular stops the rest: the bold font is not even looked at. */
  lemma RegularLoadFailureStops(prev: FontPair, list: seq<Font>, unloadable: set<Font>)
    requires InterRegular in list && InterRegular in unloadable
    ensures SelectFonts(prev, FontHost(Some(list), unloadable)) == FontPair(InterRegular, prev.bold)
  {
  }
}
