/**
 * The editor's top bar (client/src/features/editor/TopBar.tsx): loading a saved diagram,
 * importing an OTM document as a diagram, starting a new diagram, and automatic layout.
 * Reading files, parsing JSON or YAML and the browser's dialogs happen before these
 * operations; their outcomes are parameters.
 */
module TopBar {
  import opened Wrappers
  import opened Values
  import opened Diagram
  import Layout

  /** An OTM component's `parent` as it arrives from YAML: a plain id, an object, or anything else. */
  datatype ParentRef =
    | ParentText(s: string)
    | ParentObject(trustZone: Option<string>, component: Option<string>)
    | NoParent

  /** A trust zone entry of an imported document. */
  datatype ZoneEntry = ZoneEntry(id: string, name: Option<string>, description: Option<string>, risk: Option<Risk>)

  /** A component entry of an imported document. */
  datatype ComponentEntry = ComponentEntry(
    id: string, name: Option<string>, componentType: Option<string>, tags: Option<seq<string>>, parent: ParentRef)

  /** A dataflow entry of an imported document. */
  datatype FlowEntry = FlowEntry(id: string, name: Option<string>, source: string, destination: string)

  /** The parsed document; `None` is a key the document lacks. */
  datatype OtmDocument = OtmDocument(
    otmVersion: Value,
    trustZones: Option<seq<ZoneEntry>>,
    components: Option<seq<ComponentEntry>>,
    dataflows: Option<seq<FlowEntry>>)

  /**
   * The owner of an imported component: a string parent as it is; an object's `trustZone`
   * if non-empty, else its `component` if non-empty, else none; anything else, none.
   */
  function ResolveParent(p: ParentRef): (r: Option<string>)
    ensures p.ParentText? ==> r == Some(p.s)
    ensures p.NoParent? ==> r.None?
    ensures p.ParentObject? && p.trustZone.Some? && p.trustZone.value != "" ==> r == p.trustZone
    ensures p.ParentObject? && (p.trustZone.None? || p.trustZone.value == "") ==>
      r == if p.component.Some? && p.component.value != "" then p.component else None
  {
    match p
    case ParentText(s) => Some(s)
    case ParentObject(tz, c) =>
      if tz.Some? && tz.value != "" then tz
      else if c.Some? && c.value != "" then c
      else None
    case NoParent => None
  }

  const ZONE_SPACING: real := 500.0
  const ZONE_SIZE: real := 400.0

  /** Zone number `i`: a 400 by 400 zone placed `500 * i` along the top row. */
  function ZoneNode(tz: ZoneEntry, i: nat): Node {
    Node(tz.id, ZONE_TYPE, Point(ZONE_SPACING * (i as real), 0.0),
         NO_DATA.(labelText := tz.name, description := tz.description, risk := tz.risk),
         None, None, map["width" := Num(ZONE_SIZE), "height" := Num(ZONE_SIZE)], None, None, None)
  }

  /** Component number `i`: placed on a diagonal, confined to its owner. */
  function ComponentNode(c: ComponentEntry, i: nat): Node {
    Node(c.id, COMPONENT_TYPE, Point(50.0 + 20.0 * (i as real), 50.0 + 50.0 * (i as real)),
         NO_DATA.(labelText := c.name, otmType := c.componentType, tags := c.tags),
         ResolveParent(c.parent), Some("parent"), map[], None, None, None)
  }

  function FlowEdge(df: FlowEntry): Edge {
    Edge(df.id, df.source, df.destination, df.name, None)
  }

  /** One zone node per trust zone, in order, with ids copied and name, description and risk carried over. */
  function ZoneNodes(zones: seq<ZoneEntry>): (r: seq<Node>)
    ensures |r| == |zones|
    ensures forall i :: 0 <= i < |r| ==> r[i] == ZoneNode(zones[i], i)
    ensures forall i :: 0 <= i < |r| ==> r[i].id == zones[i].id && r[i].nodeType == ZONE_TYPE &&
                                         r[i].data.labelText == zones[i].name && r[i].data.risk == zones[i].risk
  {
    seq(|zones|, i requires 0 <= i < |zones| => ZoneNode(zones[i], i))
  }

  /** One component node per component, in order, with ids copied and the owner resolved. */
  function ComponentNodes(comps: seq<ComponentEntry>): (r: seq<Node>)
    ensures |r| == |comps|
    ensures forall i :: 0 <= i < |r| ==> r[i] == ComponentNode(comps[i], i)
    ensures forall i :: 0 <= i < |r| ==> r[i].id == comps[i].id && r[i].nodeType == COMPONENT_TYPE &&
                                         r[i].parentNode == ResolveParent(comps[i].parent)
  {
    seq(|comps|, i requires 0 <= i < |comps| => ComponentNode(comps[i], i))
  }

  /** One edge per dataflow, in order, endpoints copied whether or not a node has them. */
  function FlowEdges(flows: seq<FlowEntry>): (r: seq<Edge>)
    ensures |r| == |flows|
    ensures forall i :: 0 <= i < |r| ==> r[i].id == flows[i].id && r[i].source == flows[i].source &&
                                         r[i].target == flows[i].destination && r[i].labelText == flows[i].name
  {
    seq(|flows|, i requires 0 <= i < |flows| => FlowEdge(flows[i]))
  }

  /** `convertOtmToDiagram`: builds the nodes and edges with three loops and replaces the diagram with them. */
  method ConvertOtmToDiagram(store: DiagramStore, zones: seq<ZoneEntry>, comps: seq<ComponentEntry>, flows: seq<FlowEntry>)
    modifies store
    ensures store.nodes == ZoneNodes(zones) + ComponentNodes(comps)
    ensures store.edges == FlowEdges(flows)
  {
    var newNodes: seq<Node> := [];
    var newEdges: seq<Edge> := [];
    var i := 0;
    while i < |zones|
      invariant 0 <= i <= |zones|
      invariant newNodes == ZoneNodes(zones[..i])
    {
      newNodes := newNodes + [ZoneNode(zones[i], i)];
      i := i + 1;
    }
    assert zones[..|zones|] == zones;
    var j := 0;
    while j < |comps|
      invariant 0 <= j <= |comps|
      invariant newNodes == ZoneNodes(zones) + ComponentNodes(comps[..j])
    {
      newNodes := newNodes + [ComponentNode(comps[j], j)];
      j := j + 1;
    }
    assert comps[..|comps|] == comps;
    var k := 0;
    while k < |flows|
      invariant 0 <= k <= |flows|
      invariant newEdges == FlowEdges(flows[..k])
    {
      newEdges := newEdges + [FlowEdge(flows[k])];
      k := k + 1;
    }
    assert flows[..|flows|] == flows;
    store.LoadDiagram(newNodes, newEdges);
  }

  /** The imported node ids are the zone ids followed by the component ids, verbatim. */
  lemma ImportIds(zones: seq<ZoneEntry>, comps: seq<ComponentEntry>)
    ensures Ids(ZoneNodes(zones) + ComponentNodes(comps)) ==
            seq(|zones|, i requires 0 <= i < |zones| => zones[i].id) + seq(|comps|, i requires 0 <= i < |comps| => comps[i].id)
  {
  }

  /** No two imported zones, and no two imported components, share a position. */
  lemma {:induction false} ImportPositionsDistinct(zones: seq<ZoneEntry>, comps: seq<ComponentEntry>)
    ensures forall i, j :: 0 <= i < j < |zones| ==> ZoneNodes(zones)[i].position != ZoneNodes(zones)[j].position
    ensures forall i, j :: 0 <= i < j < |comps| ==> ComponentNodes(comps)[i].position != ComponentNodes(comps)[j].position
  {
    forall i, j | 0 <= i < j < |comps|
      ensures ComponentNodes(comps)[i].position != ComponentNodes(comps)[j].position
    {
      assert ComponentNodes(comps)[i].position.y == 50.0 + 50.0 * (i as real);
      assert ComponentNodes(comps)[j].position.y == 50.0 + 50.0 * (j as real);
    }
    forall i, j | 0 <= i < j < |zones|
      ensures ZoneNodes(zones)[i].position != ZoneNodes(zones)[j].position
    {
      assert ZoneNodes(zones)[i].position.x == 500.0 * (i as real);
      assert ZoneNodes(zones)[j].position.x == 500.0 * (j as real);
    }
  }

  /** How a file load ends: applied, rejected by the user, rejected as malformed, or failed to parse. */
  datatype LoadOutcome = Applied | Cancelled | Invalid | ParseFailed

  /** An OTM import is applied only with a truthy `otmVersion` and a `trustZones` list. */
  predicate OtmImportAccepted(doc: OtmDocument) {
    JsTruthy(doc.otmVersion) && doc.trustZones.Some?
  }

  /**
   * Importing an OTM file. A non-empty diagram is overwritten only when the user confirms.
   * A document lacking `components` or `dataflows` fails while being converted, before the
   * diagram is replaced, and is reported as a parse failure.
   */
  method HandleImportOtm(store: DiagramStore, parsed: Option<OtmDocument>, confirmed: bool) returns (outcome: LoadOutcome)
    modifies store
    ensures outcome == Applied <==>
      (old(store.nodes) == [] || confirmed) && parsed.Some? && OtmImportAccepted(parsed.value) &&
      parsed.value.components.Some? && parsed.value.dataflows.Some?
    ensures outcome == Invalid <==> (old(store.nodes) == [] || confirmed) && parsed.Some? && !OtmImportAccepted(parsed.value)
    ensures outcome == Applied ==>
      store.nodes == ZoneNodes(parsed.value.trustZones.value) + ComponentNodes(parsed.value.components.value) &&
      store.edges == FlowEdges(parsed.value.dataflows.value)
    ensures outcome != Applied ==> store.nodes == old(store.nodes) && store.edges == old(store.edges) &&
                                   store.selectedNodeId == old(store.selectedNodeId)
  {
    if |store.nodes| > 0 && !confirmed {
      return Cancelled;
    }
    if parsed.None? {
      return ParseFailed;
    }
    var doc := parsed.value;
    if !OtmImportAccepted(doc) {
      return Invalid;
    }
    if doc.components.None? || doc.dataflows.None? {
      return ParseFailed;
    }
    ConvertOtmToDiagram(store, doc.trustZones.value, doc.components.value, doc.dataflows.value);
    outcome := Applied;
  }

  /** A saved diagram file, parsed; `None` is a key the file lacks. */
  datatype SavedDiagram = SavedDiagram(nodes: Option<seq<Node>>, edges: Option<seq<Edge>>)

  /** Loading a saved diagram: applied only when it has both `nodes` and `edges`. */
  method HandleLoadJson(store: DiagramStore, parsed: Option<SavedDiagram>, confirmed: bool) returns (outcome: LoadOutcome)
    modifies store
    ensures outcome == Applied <==>
      (old(store.nodes) == [] || confirmed) && parsed.Some? && parsed.value.nodes.Some? && parsed.value.edges.Some?
    ensures outcome == Applied ==> store.nodes == parsed.value.nodes.value && store.edges == parsed.value.edges.value
    ensures outcome != Applied ==> store.nodes == old(store.nodes) && store.edges == old(store.edges) &&
                                   store.selectedNodeId == old(store.selectedNodeId)
  {
    if |store.nodes| > 0 && !confirmed {
      return Cancelled;
    }
    if parsed.None? {
      return ParseFailed;
    }
    var data := parsed.value;
    if data.nodes.Some? && data.edges.Some? {
      store.LoadDiagram(data.nodes.value, data.edges.value);
      outcome := Applied;
    } else {
      outcome := Invalid;
    }
  }

  /** A new model empties the diagram once the user confirms. */
  method HandleNew(store: DiagramStore, confirmed: bool)
    modifies store
    ensures confirmed ==> store.nodes == [] && store.edges == []
    ensures !confirmed ==> store.nodes == old(store.nodes) && store.edges == old(store.edges) &&
                           store.selectedNodeId == old(store.selectedNodeId)
  {
    if confirmed {
      store.LoadDiagram([], []);
    }
  }

  /** Automatic layout always runs top to bottom and replaces the diagram with the laid-out one. */
  method HandleAutoLayout(store: DiagramStore, layout: map<string, Layout.Box>)
    requires Layout.Placed(store.nodes, layout)
    modifies store
    ensures |store.nodes| == |old(store.nodes)|
    ensures forall i :: 0 <= i < |store.nodes| ==> store.nodes[i] == Layout.LayoutNode(old(store.nodes)[i], "TB", layout)
    ensures forall i :: 0 <= i < |store.nodes| ==>
      store.nodes[i].targetPosition == Some(Top) && store.nodes[i].sourcePosition == Some(Bottom)
    ensures store.edges == old(store.edges)
  {
    var graph, outNodes, outEdges, warnings := Layout.GetLayoutedElements(store.nodes, store.edges, "TB", layout);
    store.LoadDiagram(outNodes, outEdges);
  }
}
