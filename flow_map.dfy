/**
 * The flow map page: one box per screen of the user journey, then a horizontal connector
 * and an arrowhead for every `connects` target that names a box. Targets that name no box
 * are dropped without a trace.
 */
module FlowMap {
  import opened Wrappers
  import opened HexColor
  import opened FigmaNodes

  datatype Flow = Flow(name: string, x: int, y: int, connects: seq<string>)

  /** The seventeen boxes, in creation order. */
  const Flows: seq<Flow> := [
    Flow("Login", 100, 100, ["Onboarding 1"]),
    Flow("Onboarding 1", 300, 100, ["Onboarding 2"]),
    Flow("Onboarding 2", 500, 100, ["Onboarding 3"]),
    Flow("Onboarding 3", 700, 100, ["Home (No Package)"]),
    Flow("Home (No Package)", 100, 300, ["Topics (Locked)", "Store", "More"]),
    Flow("Topics (Locked)", 300, 300, ["Packages List"]),
    Flow("Store", 500, 300, []),
    Flow("More", 700, 300, ["Settings"]),
    Flow("Packages List", 100, 500, ["Package Details"]),
    Flow("Package Details", 300, 500, ["Payment"]),
    Flow("Payment", 500, 500, ["Purchase Success"]),
    Flow("Purchase Success", 700, 500, ["Home (Premium)"]),
    Flow("Home (Premium)", 100, 700, ["Topics (Unlocked)", "Lesson View"]),
    Flow("Topics (Unlocked)", 300, 700, ["Lesson View"]),
    Flow("Lesson View", 500, 700, ["Practice", "Exam Config"]),
    Flow("AI Chat", 900, 300, []),
    Flow("Settings", 900, 500, [])
  ]

  /** `flows.find(f => f.name === target)`: the first box with that name, if any. */
  function FindFlow(flows: seq<Flow>, name: string): (r: Option<Flow>)
    ensures r.Some? ==> r.value in flows && r.value.name == name
  {
    if flows == [] then None
    else if flows[0].name == name then Some(flows[0])
    else FindFlow(flows[1..], name)
  }

  /** `find` misses exactly when no box has the name, and otherwise returns a box of the list with that name. */
  lemma {:induction false} FindFlowFound(flows: seq<Flow>, name: string)
    ensures FindFlow(flows, name).None? <==> forall i :: 0 <= i < |flows| ==> flows[i].name != name
    ensures FindFlow(flows, name).Some? ==> FindFlow(flows, name).value in flows && FindFlow(flows, name).value.name == name
  {
    if flows != [] && flows[0].name != name {
      FindFlowFound(flows[1..], name);
      assert forall j :: 1 <= j < |flows| ==> flows[j] == flows[1..][j - 1];
    }
  }

  /** `find` returns the first match: the box at `k` when no earlier box has that name. */
  lemma {:induction false} FindFlowFirst(flows: seq<Flow>, name: string, k: nat)
    requires k < |flows| && flows[k].name == name
    requires forall j :: 0 <= j < k ==> flows[j].name != name
    ensures FindFlow(flows, name) == Some(flows[k])
  {
    if k > 0 {
      FindFlowFirst(flows[1..], name, k - 1);
    }
  }

  /** A box: a white 160x80 frame outlined in the brand green, its name in bold green inside. */
  function FlowBox(f: Flow, fonts: FontPair): Node {
    Frame(f.name, f.x, f.y, 160, 80, Solid("#ffffff"), Solid(BrandHex), 12,
          [Text(f.name, 20, 35, 12, fonts.bold, Solid(BrandHex))])
  }

  function FlowBoxes(flows: seq<Flow>, fonts: FontPair): (boxes: seq<Node>)
    ensures |boxes| == |flows|
    ensures forall i :: 0 <= i < |flows| ==> boxes[i] == FlowBox(flows[i], fonts)
  {
    seq(|flows|, i requires 0 <= i < |flows| => FlowBox(flows[i], fonts))
  }

  /**
   * A connector from `from` to `to`: a line leaving the box's right edge at mid-height, as
   * long as the horizontal gap to the target's left edge, and a triangle at the target.
   */
  function Connector(from: Flow, to: Flow): (nodes: seq<Node>)
    ensures |nodes| == 2 && nodes[0].Line? && nodes[1].Triangle?
  {
    [Line(from.x + 160, from.y + 40, to.x - from.x - 160, BrandRgb),
     Triangle(to.x - 10, to.y + 35, 10, BrandRgb)]
  }

  /** The resolved edges of one box, in the order of its `connects` list. */
  function EdgesFrom(from: Flow, targets: seq<string>, all: seq<Flow>): (edges: seq<(Flow, Flow)>)
    ensures |edges| <= |targets|
  {
    if targets == [] then []
    else
      EdgesFrom(from, targets[..|targets| - 1], all) +
      match FindFlow(all, targets[|targets| - 1])
      case None => []
      case Some(to) => [(from, to)]
  }

  /** The resolved edges of a list of boxes, box by box. */
  function Edges(sources: seq<Flow>, all: seq<Flow>): (edges: seq<(Flow, Flow)>)
    ensures |edges| <= TargetCount(sources)
  {
    if sources == [] then []
    else
      var last := sources[|sources| - 1];
      Edges(sources[..|sources| - 1], all) + EdgesFrom(last, last.connects, all)
  }

  /** How many `connects` targets the boxes list, all together. */
  function TargetCount(flows: seq<Flow>): nat {
    if flows == [] then 0
    else TargetCount(flows[..|flows| - 1]) + |flows[|flows| - 1].connects|
  }

  /** The names of the boxes, in order. */
  function Names(all: seq<Flow>): seq<string> {
    seq(|all|, i requires 0 <= i < |all| => all[i].name)
  }

  /** How many of `targets` name no box of `all`. */
  function DroppedFrom(targets: seq<string>, all: seq<Flow>): nat {
    if targets == [] then 0
    else DroppedFrom(targets[..|targets| - 1], all) + if targets[|targets| - 1] in Names(all) then 0 else 1
  }

  /** How many targets of the boxes name no box of `all`, all together. */
  function DroppedCount(flows: seq<Flow>, all: seq<Flow>): nat {
    if flows == [] then 0
    else DroppedCount(flows[..|flows| - 1], all) + DroppedFrom(flows[|flows| - 1].connects, all)
  }

  /** The connector nodes of a list of edges, in order. */
  function Draw(edges: seq<(Flow, Flow)>): (nodes: seq<Node>)
    ensures |nodes| == 2 * |edges|
  {
    if edges == [] then []
    else Draw(edges[..|edges| - 1]) + Connector(edges[|edges| - 1].0, edges[|edges| - 1].1)
  }

  /** The boxes, then the connectors. */
  function FlowNodesOf(flows: seq<Flow>, fonts: FontPair): seq<Node> {
    FlowBoxes(flows, fonts) + Draw(Edges(flows, flows))
  }

  /** The whole content of the flow page. */
  function FlowPageNodes(fonts: FontPair): seq<Node> {
    FlowNodesOf(Flows, fonts)
  }

  // ---------------------------------------------------------------------------
  // Properties

  lemma {:induction false} DrawAppend(a: seq<(Flow, Flow)>, b: seq<(Flow, Flow)>)
    ensures Draw(a + b) == Draw(a) + Draw(b)
    decreases |b|
  {
    if b == [] {
      assert a + b == a;
    } else {
      var b' := b[..|b| - 1];
      assert (a + b)[..|a + b| - 1] == a + b';
      DrawAppend(a, b');
    }
  }

  /** An edge leaves `from` exactly when one of the given targets names a box, which it then points to. */
  lemma {:induction false} EdgesFromExactly(from: Flow, targets: seq<string>, all: seq<Flow>, e: (Flow, Flow))
    ensures e in EdgesFrom(from, targets, all) <==>
      e.0 == from && exists t :: t in targets && FindFlow(all, t) == Some(e.1)
    decreases |targets|
  {
    if targets != [] {
      var init := targets[..|targets| - 1];
      var last := targets[|targets| - 1];
      EdgesFromExactly(from, init, all, e);
      assert targets == init + [last];
      if e.0 == from && (exists t :: t in targets && FindFlow(all, t) == Some(e.1)) {
        var t :| t in targets && FindFlow(all, t) == Some(e.1);
        if t != last {
          assert t in init;
        }
      }
    }
  }

  /**
   * Edge resolution, both directions: a pair is drawn exactly when its source is one of the
   * boxes and one of that box's targets names the destination box.
   */
  lemma {:induction false} EdgesExactly(sources: seq<Flow>, all: seq<Flow>, e: (Flow, Flow))
    ensures e in Edges(sources, all) <==>
      e.0 in sources && exists t :: t in e.0.connects && FindFlow(all, t) == Some(e.1)
    decreases |sources|
  {
    if sources != [] {
      var init := sources[..|sources| - 1];
      var last := sources[|sources| - 1];
      EdgesExactly(init, all, e);
      EdgesFromExactly(last, last.connects, all, e);
      assert sources == init + [last];
    }
  }

  /** Every drawn connector ends at an existing box: edges never point at a missing name. */
  lemma EdgeTargetsExist(e: (Flow, Flow))
    requires e in Edges(Flows, Flows)
    ensures e.1 in Flows && e.0 in Flows
  {
    EdgesExactly(Flows, Flows, e);
    var t :| t in e.0.connects && FindFlow(Flows, t) == Some(e.1);
    FindFlowFound(Flows, t);
  }

  lemma Missing(flows: seq<Flow>, name: string)
    requires forall i :: 0 <= i < |flows| ==> flows[i].name != name
    ensures FindFlow(flows, name) == None
  {
    FindFlowFound(flows, name);
  }

  /** No box is named "Practice" or "Exam Config". */
  lemma LessonTargetsMissing()
    ensures FindFlow(Flows, "Practice") == None && FindFlow(Flows, "Exam Config") == None
  {
    forall i | 0 <= i < |Flows|
      ensures Flows[i].name != "Practice" && Flows[i].name != "Exam Config"
    {
      if i < 9 { } else { }
    }
    Missing(Flows, "Practice");
    Missing(Flows, "Exam Config");
  }

  /** The two targets of "Lesson View" name no box, so that box gets no connector at all. */
  lemma LessonTargetsDropped()
    ensures Flows[14].name == "Lesson View" && Flows[14].connects == ["Practice", "Exam Config"]
    ensures EdgesFrom(Flows[14], Flows[14].connects, Flows) == []
  {
    forall i, j | 0 <= i < |Flows[14].connects| && 0 <= j < |Flows|
      ensures Flows[j].name != Flows[14].connects[i]
    {
      if j < 9 { } else { }
    }
    EdgesFromNone(Flows[14], Flows[14].connects, Flows);
  }

  lemma {:induction false} EdgesFromNone(from: Flow, targets: seq<string>, all: seq<Flow>)
    requires forall i, j :: 0 <= i < |targets| && 0 <= j < |all| ==> all[j].name != targets[i]
    ensures EdgesFrom(from, targets, all) == []
    decreases |targets|
  {
    if targets != [] {
      EdgesFromNone(from, targets[..|targets| - 1], all);
      Missing(all, targets[|targets| - 1]);
    }
  }

  /**
   * The line of a back edge has negative width: from "Onboarding 3" at x = 700 to
   * "Home (No Package)" at x = 100 the computed width is 100 - 700 - 160.
   */
  lemma BackEdgeWidth()
    ensures (Flows[3], Flows[4]) in Edges(Flows, Flows)
    ensures Connector(Flows[3], Flows[4])[0].length == -760
  {
    assert forall j :: 0 <= j < 4 ==> Flows[j].name != "Home (No Package)";
    FindFlowFirst(Flows, "Home (No Package)", 4);
    EdgesExactly(Flows, Flows, (Flows[3], Flows[4]));
    assert "Home (No Package)" in Flows[3].connects;
  }

  /** A target names a box exactly when `find` finds one. */
  lemma NamedIffFound(all: seq<Flow>, t: string)
    ensures t in Names(all) <==> FindFlow(all, t).Some?
  {
    FindFlowFound(all, t);
    assert forall i :: 0 <= i < |all| ==> Names(all)[i] == all[i].name;
  }

  /** Every target of a box gives one edge, unless it names no box. */
  lemma {:induction false} EdgesFromCount(from: Flow, targets: seq<string>, all: seq<Flow>)
    ensures |EdgesFrom(from, targets, all)| + DroppedFrom(targets, all) == |targets|
    decreases |targets|
  {
    if targets != [] {
      var last := targets[|targets| - 1];
      EdgesFromCount(from, targets[..|targets| - 1], all);
      NamedIffFound(all, last);
    }
  }

  /** Every target of every box gives one edge, unless it names no box. */
  lemma {:induction false} EdgesCount(sources: seq<Flow>, all: seq<Flow>)
    ensures |Edges(sources, all)| + DroppedCount(sources, all) == TargetCount(sources)
    decreases |sources|
  {
    if sources != [] {
      var last := sources[|sources| - 1];
      EdgesCount(sources[..|sources| - 1], all);
      EdgesFromCount(last, last.connects, all);
    }
  }

  /** Targets that all name a box drop nothing. */
  lemma {:induction false} DroppedFromNone(targets: seq<string>, all: seq<Flow>)
    requires forall i :: 0 <= i < |targets| ==> targets[i] in Names(all)
    ensures DroppedFrom(targets, all) == 0
    decreases |targets|
  {
    if targets != [] {
      DroppedFromNone(targets[..|targets| - 1], all);
    }
  }

  /** Running totals over the boxes in order: targets listed, and targets naming no box. */
  const TargetsBefore: seq<nat> := [0, 1, 2, 3, 4, 7, 8, 8, 9, 10, 11, 12, 13, 15, 16, 18, 18, 18]
  const DroppedBefore: seq<nat> := [0, 0, 0, 0, 0, 0, 0, 0, 0, 0, 0, 0, 0, 0, 0, 2, 2, 2]

  /** How many targets each box lists, read off the running totals. */
  lemma TargetsPerBox()
    ensures forall k :: 0 <= k < |Flows| ==> |Flows[k].connects| == TargetsBefore[k + 1] - TargetsBefore[k]
  {
  }

  /** Targets each naming the box at the matching index of `boxes` drop nothing. */
  lemma AllNamed(targets: seq<string>, all: seq<Flow>, boxes: seq<nat>)
    requires |boxes| == |targets|
    requires forall i :: 0 <= i < |targets| ==> boxes[i] < |all| && all[boxes[i]].name == targets[i]
    ensures DroppedFrom(targets, all) == 0
  {
    forall i | 0 <= i < |targets|
      ensures targets[i] in Names(all)
    {
      assert Names(all)[boxes[i]] == targets[i];
    }
    DroppedFromNone(targets, all);
  }

  /** For each box, the index of the box each of its targets names ("Lesson View" names none). */
  const NamedBoxes: seq<seq<nat>> := [[1], [2], [3], [4], [5, 6, 7], [8], [], [16], [9], [10], [11], [12], [13, 14], [14], [], [], []]

  /** Each listed target is the name of the box `NamedBoxes` gives for it. */
  lemma NamedBoxesName()
    ensures forall k :: 0 <= k < |Flows| && k != 14 ==> |NamedBoxes[k]| == |Flows[k].connects|
    ensures forall k, i :: 0 <= k < |Flows| && k != 14 && 0 <= i < |NamedBoxes[k]| ==>
      NamedBoxes[k][i] < |Flows| && Flows[NamedBoxes[k][i]].name == Flows[k].connects[i]
  {
  }

  /** Targets that name no box are all dropped. */
  lemma {:induction false} DroppedFromAll(targets: seq<string>, all: seq<Flow>)
    requires forall i :: 0 <= i < |targets| ==> targets[i] !in Names(all)
    ensures DroppedFrom(targets, all) == |targets|
    decreases |targets|
  {
    if targets != [] {
      DroppedFromAll(targets[..|targets| - 1], all);
    }
  }

  /** Both targets of "Lesson View" name no box. */
  lemma LessonDropsBoth()
    ensures DroppedFrom(Flows[14].connects, Flows) == 2
  {
    forall i | 0 <= i < |Flows|
      ensures Flows[i].name != "Practice" && Flows[i].name != "Exam Config"
    {
      if i < 9 { } else { }
    }
    DroppedFromAll(Flows[14].connects, Flows);
  }

  /** What each box drops: nothing, except the two targets of "Lesson View" (box 14). */
  lemma BoxDropped(k: nat)
    requires k < |Flows|
    ensures DroppedFrom(Flows[k].connects, Flows) == DroppedBefore[k + 1] - DroppedBefore[k]
  {
    if k == 14 {
      LessonDropsBoth();
    } else {
      NamedBoxesName();
      AllNamed(Flows[k].connects, Flows, NamedBoxes[k]);
    }
  }

  /** The running totals over the first `k` boxes. */
  lemma {:induction false} PrefixCounts(k: nat)
    requires k <= |Flows|
    ensures TargetCount(Flows[..k]) == TargetsBefore[k]
    ensures DroppedCount(Flows[..k], Flows) == DroppedBefore[k]
  {
    if k == 0 {
      assert Flows[..0] == [];
    } else {
      PrefixCounts(k - 1);
      TargetsPerBox();
      BoxDropped(k - 1);
      assert Flows[..k][..k - 1] == Flows[..k - 1];
    }
  }

  /** The seventeen boxes list eighteen targets; only the two of "Lesson View" name no box. */
  lemma FlowTargetCount()
    ensures TargetCount(Flows) == 18 && DroppedCount(Flows, Flows) == 2
  {
    PrefixCounts(|Flows|);
    assert Flows[..|Flows|] == Flows;
  }

  /** Sixteen connectors are drawn: one per target, less the two dropped. */
  lemma FlowEdgeCount()
    ensures |Edges(Flows, Flows)| == 16
  {
    FlowTargetCount();
    EdgesCount(Flows, Flows);
  }
}
