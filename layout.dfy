/**
 * Automatic layout (client/src/lib/layout.ts): the compound graph handed to the layered
 * layout library, and the conversion of the library's centre-and-size placement back
 * into React Flow nodes positioned relative to their owners. The library's placement
 * itself is a parameter.
 */
module Layout {
  import opened Wrappers
  import opened Values
  import opened Diagram

  datatype Padding = Padding(left: int, right: int, top: int, bottom: int)

  /** Room left around a zone's members; the top leaves space for the zone's header. */
  const ZONE_PADDING: Padding := Padding(40, 40, 60, 40)

  const DEFAULT_WIDTH: real := 180.0
  const DEFAULT_HEIGHT: real := 80.0

  /** A node as registered with the layout graph: a zone is a container sized by the library, anything else a fixed-size leaf. */
  datatype GraphNode =
    | ContainerNode(labelText: Option<string>, padding: Padding)
    | LeafNode(width: real, height: real)

  /** The compound graph: registered nodes, containment links (child to owner), and one link per edge. */
  datatype LayoutGraph = LayoutGraph(
    rankdir: string,
    nodes: map<string, GraphNode>,
    parents: map<string, string>,
    links: seq<(string, string)>)

  /** `measured || style || default`: the first truthy one (a number is truthy when it is not 0). */
  function Dimension(measured: Option<real>, styled: Option<Value>, default: real): (r: real)
    requires default != 0.0
    ensures r != 0.0
    ensures measured.Some? && measured.value != 0.0 ==> r == measured.value
    ensures (measured.None? || measured.value == 0.0) && styled.Some? && styled.value.Num? && styled.value.n != 0.0 ==> r == styled.value.n
    ensures (measured.None? || measured.value == 0.0) && (styled.None? || !styled.value.Num? || styled.value.n == 0.0) ==> r == default
  {
    if measured.Some? && measured.value != 0.0 then measured.value
    else if styled.Some? && styled.value.Num? && styled.value.n != 0.0 then styled.value.n
    else default
  }

  function StyleEntry(style: map<string, Value>, key: string): Option<Value> {
    if key in style then Some(style[key]) else None
  }

  function LeafWidth(node: Node): real {
    Dimension(if node.measured.Some? then Some(node.measured.value.width) else None,
              StyleEntry(node.style, "width"), DEFAULT_WIDTH)
  }

  function LeafHeight(node: Node): real {
    Dimension(if node.measured.Some? then Some(node.measured.value.height) else None,
              StyleEntry(node.style, "height"), DEFAULT_HEIGHT)
  }

  /** What `setNode` registers for one node. */
  function NodeEntry(node: Node): (r: GraphNode)
    ensures r.ContainerNode? <==> node.nodeType == ZONE_TYPE
    ensures r.ContainerNode? ==> r.padding == ZONE_PADDING && r.labelText == node.data.labelText
    ensures r.LeafNode? ==> r.width != 0.0 && r.height != 0.0
  {
    if node.nodeType == ZONE_TYPE then ContainerNode(node.data.labelText, ZONE_PADDING)
    else LeafNode(LeafWidth(node), LeafHeight(node))
  }

  /** The node registrations after `setNode` for every node in order (a repeated id keeps the last registration). */
  function RegisteredNodes(nodes: seq<Node>): (r: map<string, GraphNode>)
    ensures r.Keys == set i | 0 <= i < |nodes| :: nodes[i].id
  {
    if nodes == [] then map[]
    else
      var last := nodes[|nodes| - 1];
      var prior := nodes[..|nodes| - 1];
      var r := RegisteredNodes(prior)[last.id := NodeEntry(last)];
      assert forall i :: 0 <= i < |prior| ==> prior[i] == nodes[i];
      r
  }

  /** The containment links after `setParent` for every node with a (truthy) owner, in order. */
  function ParentLinks(nodes: seq<Node>): (r: map<string, string>)
    ensures forall id :: id in r ==> exists i :: 0 <= i < |nodes| && nodes[i].id == id && HasOwner(nodes[i])
  {
    if nodes == [] then map[]
    else
      var last := nodes[|nodes| - 1];
      var prior := nodes[..|nodes| - 1];
      assert forall i :: 0 <= i < |prior| ==> prior[i] == nodes[i];
      if HasOwner(last) then ParentLinks(prior)[last.id := last.parentNode.value] else ParentLinks(prior)
  }

  /** One layout link per edge, from its source to its target. */
  function Links(edges: seq<Edge>): (r: seq<(string, string)>)
    ensures |r| == |edges|
    ensures forall k :: 0 <= k < |r| ==> r[k] == (edges[k].source, edges[k].target)
  {
    seq(|edges|, k requires 0 <= k < |edges| => (edges[k].source, edges[k].target))
  }

  /** A node registered last under its id keeps its own registration. */
  lemma {:induction false} RegisteredAt(nodes: seq<Node>, i: int)
    requires 0 <= i < |nodes|
    requires forall j :: i < j < |nodes| ==> nodes[j].id != nodes[i].id
    ensures RegisteredNodes(nodes)[nodes[i].id] == NodeEntry(nodes[i])
  {
    var prior := nodes[..|nodes| - 1];
    if i < |nodes| - 1 {
      assert prior[i] == nodes[i];
      RegisteredAt(prior, i);
    }
  }

  /** A node with an owner, last under its id, is linked to that owner. */
  lemma {:induction false} LinkedAt(nodes: seq<Node>, i: int)
    requires 0 <= i < |nodes| && HasOwner(nodes[i])
    requires forall j :: i < j < |nodes| ==> nodes[j].id != nodes[i].id
    ensures nodes[i].id in ParentLinks(nodes) && ParentLinks(nodes)[nodes[i].id] == nodes[i].parentNode.value
  {
    var prior := nodes[..|nodes| - 1];
    if i < |nodes| - 1 {
      assert prior[i] == nodes[i];
      LinkedAt(prior, i);
    }
  }

  /** Builds the compound graph with a `setNode` loop, a `setParent` loop and a `setEdge` loop. */
  method BuildGraph(nodes: seq<Node>, edges: seq<Edge>, direction: string) returns (g: LayoutGraph)
    ensures g == LayoutGraph(direction, RegisteredNodes(nodes), ParentLinks(nodes), Links(edges))
  {
    var registered := SetNodes(nodes);
    var parents := SetParents(nodes);
    var links := SetEdges(edges);
    g := LayoutGraph(direction, registered, parents, links);
  }

  /** The `setNode` loop: every node registered under its id, a later node replacing an earlier one. */
  method SetNodes(nodes: seq<Node>) returns (registered: map<string, GraphNode>)
    ensures registered == RegisteredNodes(nodes)
  {
    registered := map[];
    var i := 0;
    while i < |nodes|
      invariant 0 <= i <= |nodes|
      invariant registered == RegisteredNodes(nodes[..i])
    {
      assert nodes[..i + 1][..i] == nodes[..i];
      registered := registered[nodes[i].id := NodeEntry(nodes[i])];
      i := i + 1;
    }
    assert nodes[..|nodes|] == nodes;
  }

  /** The `setParent` loop: every node with an owner linked to it. */
  method SetParents(nodes: seq<Node>) returns (parents: map<string, string>)
    ensures parents == ParentLinks(nodes)
  {
    parents := map[];
    var i := 0;
    while i < |nodes|
      invariant 0 <= i <= |nodes|
      invariant parents == ParentLinks(nodes[..i])
    {
      assert nodes[..i + 1][..i] == nodes[..i];
      if HasOwner(nodes[i]) {
        parents := parents[nodes[i].id := nodes[i].parentNode.value];
      }
      i := i + 1;
    }
    assert nodes[..|nodes|] == nodes;
  }

  /** The `setEdge` loop: one link per edge, in order. */
  method SetEdges(edges: seq<Edge>) returns (links: seq<(string, string)>)
    ensures links == Links(edges)
  {
    links := [];
    var k := 0;
    while k < |edges|
      invariant 0 <= k <= |edges|
      invariant links == Links(edges[..k])
    {
      links := links + [(edges[k].source, edges[k].target)];
      k := k + 1;
    }
    assert edges[..|edges|] == edges;
  }

  /** A node as the library places it: its centre and its size. */
  datatype Box = Box(x: real, y: real, width: real, height: real)

  /** The top-left corner: the centre moved back by half the size in each axis. */
  function TopLeft(b: Box): (r: Point)
    ensures r.x + b.width / 2.0 == b.x && r.y + b.height / 2.0 == b.y
  {
    Point(b.x - b.width / 2.0, b.y - b.height / 2.0)
  }

  /**
   * The position React Flow is given: relative to the owner's top-left corner when the
   * node has an owner the layout placed, its own absolute top-left corner otherwise.
   */
  function PlacedPosition(node: Node, layout: map<string, Box>): Point
    requires node.id in layout
  {
    var abs := TopLeft(layout[node.id]);
    if HasOwner(node) && node.parentNode.value in layout then
      var owner := TopLeft(layout[node.parentNode.value]);
      Point(abs.x - owner.x, abs.y - owner.y)
    else abs
  }

  /** Target and source handle sides: left and right for a left-to-right layout, top and bottom for any other. */
  function Handles(direction: string): (r: (Side, Side))
    ensures direction == "LR" <==> r == (Left, Right)
    ensures direction != "LR" <==> r == (Top, Bottom)
  {
    if direction == "LR" then (Left, Right) else (Top, Bottom)
  }

  /** One node after layout. */
  function LayoutNode(node: Node, direction: string, layout: map<string, Box>): Node
    requires node.id in layout
  {
    var b := layout[node.id];
    node.(targetPosition := Some(Handles(direction).0),
          sourcePosition := Some(Handles(direction).1),
          position := PlacedPosition(node, layout),
          style := node.style["width" := Num(b.width)]["height" := Num(b.height)])
  }

  /** Only position, handles and size change; every other field and every other style key is kept. */
  lemma LayoutNodeKeeps(node: Node, direction: string, layout: map<string, Box>)
    requires node.id in layout
    ensures var r := LayoutNode(node, direction, layout);
      r.(position := node.position, style := node.style,
         sourcePosition := node.sourcePosition, targetPosition := node.targetPosition) == node
    ensures var r := LayoutNode(node, direction, layout);
      r.style.Keys == node.style.Keys + {"width", "height"} &&
      r.style["width"] == Num(layout[node.id].width) && r.style["height"] == Num(layout[node.id].height) &&
      forall k :: k in node.style && k != "width" && k != "height" ==> r.style[k] == node.style[k]
  {
  }

  /**
   * The placement the library chose is recovered from the node: its position plus its
   * owner's top-left corner (when the owner was placed) is its own top-left corner, and
   * adding half its size gives the centre.
   */
  lemma PlacementRecovered(node: Node, direction: string, layout: map<string, Box>)
    requires node.id in layout
    ensures var r := LayoutNode(node, direction, layout);
      var origin := if HasOwner(node) && node.parentNode.value in layout
                    then TopLeft(layout[node.parentNode.value]) else Point(0.0, 0.0);
      var b := layout[node.id];
      r.position.x + origin.x + b.width / 2.0 == b.x &&
      r.position.y + origin.y + b.height / 2.0 == b.y
  {
  }

  /** The layout library places every node it was given. */
  predicate Placed(nodes: seq<Node>, layout: map<string, Box>) {
    forall i :: 0 <= i < |nodes| ==> nodes[i].id in layout
  }

  /** `node`'s owner was not placed by the layout, and `w` is the warning logged for it. */
  predicate WarnedFor(node: Node, layout: map<string, Box>, w: (string, string)) {
    HasOwner(node) && node.parentNode.value !in layout && w == (node.parentNode.value, node.id)
  }

  /** `(owner, child)` for every node whose owner the layout did not place, in node order: the warnings logged. */
  function OwnerWarnings(nodes: seq<Node>, layout: map<string, Box>): (r: seq<(string, string)>)
    ensures |r| <= |nodes|
    ensures forall k :: 0 <= k < |r| ==> exists i :: 0 <= i < |nodes| && WarnedFor(nodes[i], layout, r[k])
  {
    if nodes == [] then []
    else
      var rest := OwnerWarnings(nodes[1..], layout);
      assert forall k :: 0 <= k < |rest| ==> exists i :: 1 <= i < |nodes| && WarnedFor(nodes[i], layout, rest[k]) by {
        forall k | 0 <= k < |rest|
          ensures exists i :: 1 <= i < |nodes| && WarnedFor(nodes[i], layout, rest[k])
        {
          var j :| 0 <= j < |nodes[1..]| && WarnedFor(nodes[1..][j], layout, rest[k]);
          assert nodes[1..][j] == nodes[j + 1];
        }
      }
      if HasOwner(nodes[0]) && nodes[0].parentNode.value !in layout
      then [(nodes[0].parentNode.value, nodes[0].id)] + rest
      else rest
  }

  /** The warnings from position `i` on: the one for node `i`, if any, then those after it. */
  lemma OwnerWarningsStep(nodes: seq<Node>, i: nat, layout: map<string, Box>)
    requires i < |nodes|
    ensures OwnerWarnings(nodes[i..], layout) ==
      (if HasOwner(nodes[i]) && nodes[i].parentNode.value !in layout
       then [(nodes[i].parentNode.value, nodes[i].id)] else []) + OwnerWarnings(nodes[i + 1..], layout)
  {
    assert nodes[i..][1..] == nodes[i + 1..];
  }

  lemma LaidAppend(nodes: seq<Node>, outNodes: seq<Node>, laid: Node, i: nat, direction: string, layout: map<string, Box>)
    requires i < |nodes| && |outNodes| == i && Placed(nodes, layout)
    requires forall j :: 0 <= j < i ==> outNodes[j] == LayoutNode(nodes[j], direction, layout)
    requires laid == LayoutNode(nodes[i], direction, layout)
    ensures forall j :: 0 <= j < i + 1 ==> (outNodes + [laid])[j] == LayoutNode(nodes[j], direction, layout)
  {
  }

  /**
   * `getLayoutedElements`: registers the graph, takes the library's placement, and maps every
   * node to its laid-out form, in order; the edges come back as they were.
   */
  method GetLayoutedElements(nodes: seq<Node>, edges: seq<Edge>, direction: string, layout: map<string, Box>)
    returns (graph: LayoutGraph, outNodes: seq<Node>, outEdges: seq<Edge>, warnings: seq<(string, string)>)
    requires Placed(nodes, layout)
    ensures graph == LayoutGraph(direction, RegisteredNodes(nodes), ParentLinks(nodes), Links(edges))
    ensures |outNodes| == |nodes|
    ensures forall i :: 0 <= i < |nodes| ==> outNodes[i] == LayoutNode(nodes[i], direction, layout)
    ensures outEdges == edges
    ensures warnings == OwnerWarnings(nodes, layout)
  {
    graph := BuildGraph(nodes, edges, direction);
    outNodes := [];
    warnings := [];
    var i := 0;
    while i < |nodes|
      invariant 0 <= i <= |nodes|
      invariant |outNodes| == i
      invariant forall j :: 0 <= j < i ==> outNodes[j] == LayoutNode(nodes[j], direction, layout)
      invariant warnings + OwnerWarnings(nodes[i..], layout) == OwnerWarnings(nodes, layout)
    {
      var node := nodes[i];
      OwnerWarningsStep(nodes, i, layout);
      if HasOwner(node) && node.parentNode.value !in layout {
        warnings := warnings + [(node.parentNode.value, node.id)];
      }
      var laid := LayoutNode(node, direction, layout);
      LaidAppend(nodes, outNodes, laid, i, direction, layout);
      outNodes := outNodes + [laid];
      i := i + 1;
    }
    outEdges := edges;
  }

  /** Laying out keeps every node id, in order. */
  lemma {:induction false} LayoutKeepsIds(nodes: seq<Node>, direction: string, layout: map<string, Box>, outNodes: seq<Node>)
    requires Placed(nodes, layout)
    requires |outNodes| == |nodes|
    requires forall i :: 0 <= i < |nodes| ==> outNodes[i] == LayoutNode(nodes[i], direction, layout)
    ensures Ids(outNodes) == Ids(nodes)
  {
  }
}
