/**
 * Export of a diagram as an OTM project (server/app/services/mapper_service.py,
 * `DiagramMapper.to_otm`): zone nodes become trust zones, component nodes components,
 * edges dataflows, with defaults for whatever the diagram leaves out, and a fixed
 * default trust zone appended when the diagram has none of that id.
 */
module Mapper {
  import opened Wrappers
  import opened Values
  import opened Diagram
  import opened OtmSchema

  const DEFAULT_ZONE_ID: string := "default-trust-zone"
  const DEFAULT_ZONE_NAME: string := "Default Zone"
  const UNNAMED: string := "Unnamed Entity"
  const DEFAULT_COMPONENT_TYPE: string := "generic-client"

  /** The rating a zone node without a risk object is exported with. */
  const DEFAULT_ZONE_RISK: Risk := FullRisk(10, 10, 10)

  /** `data.get("label", "Unnamed Entity")` */
  function LabelOf(node: Node): string {
    node.data.labelText.GetOr(UNNAMED)
  }

  /** A component without an owner is placed in the default zone; otherwise its owner is kept verbatim. */
  function OwnerOf(node: Node): (r: string)
    ensures HasOwner(node) ==> r == node.parentNode.value
    ensures !HasOwner(node) ==> r == DEFAULT_ZONE_ID
  {
    if HasOwner(node) then node.parentNode.value else DEFAULT_ZONE_ID
  }

  /** All three ratings are present and within 0..100. */
  predicate RatingsValid(risk: Risk) {
    risk.Complete() && InRating(risk.confidentiality.value) && InRating(risk.integrity.value) &&
    InRating(risk.availability.value)
  }

  /**
   * A zone node as a trust zone: the risk object (10/10/10 when absent) must hold all three
   * ratings within 0..100, and the label (when present) must be non-empty.
   */
  function MapZone(node: Node): (r: Result<TrustZone, ValidationError>)
    ensures r.Success? <==> RatingsValid(node.data.risk.GetOr(DEFAULT_ZONE_RISK)) && |LabelOf(node)| >= 1
    ensures r.Success? ==> r.value.Valid() && r.value.id == node.id && r.value.name == LabelOf(node) &&
                           r.value.description == node.data.description && r.value.tags == [] &&
                           r.value.attributes == node.data.attributes.GetOr(map[])
    ensures r.Success? ==> var risk := node.data.risk.GetOr(DEFAULT_ZONE_RISK);
      r.value.risk == TrustRating(risk.confidentiality.value, risk.integrity.value, risk.availability.value)
  {
    var risk := node.data.risk.GetOr(DEFAULT_ZONE_RISK);
    match NewTrustRating(risk.confidentiality, risk.integrity, risk.availability)
    case Failure(e) => Failure(e)
    case Success(rating) =>
      NewTrustZone(node.id, LabelOf(node), node.data.description, None, None, rating, node.data.attributes)
  }

  /** A component node as a component: the label (when present) must be non-empty; type, tags and attributes default. */
  function MapComponent(node: Node): (r: Result<Component, ValidationError>)
    ensures r.Success? <==> |LabelOf(node)| >= 1
    ensures r.Success? ==> r.value.Valid() && r.value.id == node.id && r.value.name == LabelOf(node) &&
                           r.value.componentType == node.data.otmType.GetOr(DEFAULT_COMPONENT_TYPE) &&
                           r.value.parent == OwnerOf(node) && r.value.description == None &&
                           r.value.tags == node.data.tags.GetOr([]) &&
                           r.value.attributes == node.data.attributes.GetOr(map[])
  {
    NewComponent(node.id, LabelOf(node), None, node.data.tags,
                 node.data.otmType.GetOr(DEFAULT_COMPONENT_TYPE), OwnerOf(node), node.data.attributes)
  }

  /** The dataflow name: the edge's label, else its data's label (empty ones skipped), else one made from the endpoints. */
  function FlowName(edge: Edge): (r: string)
    ensures |r| >= 1
    ensures edge.labelText.Some? && edge.labelText.value != "" ==> r == edge.labelText.value
    ensures !(edge.labelText.Some? && edge.labelText.value != "") &&
            edge.data.Some? && edge.data.value.labelText.Some? && edge.data.value.labelText.value != "" ==>
            r == edge.data.value.labelText.value
    ensures !(edge.labelText.Some? && edge.labelText.value != "") &&
            !(edge.data.Some? && edge.data.value.labelText.Some? && edge.data.value.labelText.value != "") ==>
            r == "Flow " + edge.source + " -> " + edge.target
  {
    if edge.labelText.Some? && edge.labelText.value != "" then edge.labelText.value
    else if edge.data.Some? && edge.data.value.labelText.Some? && edge.data.value.labelText.value != ""
    then edge.data.value.labelText.value
    else "Flow " + edge.source + " -> " + edge.target
  }

  function MapFlow(edge: Edge): Result<DataFlow, ValidationError> {
    var data := edge.data.GetOr(EdgeData(None, None, None));
    NewDataFlow(edge.id, FlowName(edge), None, None, edge.source, edge.target, data.bidirectional, data.attributes)
  }

  /** Every edge can be exported: its dataflow keeps the endpoints, and `bidirectional` and attributes default. */
  lemma MapFlowSucceeds(edge: Edge)
    ensures MapFlow(edge).Success?
    ensures var df := MapFlow(edge).value;
      df.Valid() && df.id == edge.id && df.source == edge.source && df.destination == edge.target &&
      df.name == FlowName(edge) &&
      df.bidirectional == (edge.data.Some? && edge.data.value.bidirectional == Some(true)) &&
      df.attributes == (if edge.data.Some? then edge.data.value.attributes.GetOr(map[]) else map[])
  {
  }

  /** The node can be exported: zones and components must map; nodes of any other type are skipped. */
  predicate Exportable(node: Node) {
    && (node.nodeType == ZONE_TYPE ==> MapZone(node).Success?)
    && (node.nodeType == COMPONENT_TYPE ==> MapComponent(node).Success?)
  }

  /** The zones and components mapped so far, or the first validation error, over the nodes in order. */
  function MapNodes(nodes: seq<Node>): (r: Result<(seq<TrustZone>, seq<Component>), ValidationError>)
    decreases |nodes|
  {
    if nodes == [] then Success(([], []))
    else
      match MapNodes(nodes[..|nodes| - 1])
      case Failure(e) => Failure(e)
      case Success(acc) => AddNode(acc, nodes[|nodes| - 1])
  }

  /** One iteration of the node loop: a zone or component node is mapped and appended; any other node is skipped. */
  function AddNode(acc: (seq<TrustZone>, seq<Component>), node: Node): (r: Result<(seq<TrustZone>, seq<Component>), ValidationError>)
    ensures r.Success? <==> Exportable(node)
    ensures r.Success? ==>
      && r.value.0 == acc.0 + (if node.nodeType == ZONE_TYPE then [MapZone(node).value] else [])
      && r.value.1 == acc.1 + (if node.nodeType == COMPONENT_TYPE then [MapComponent(node).value] else [])
  {
    if node.nodeType == ZONE_TYPE then
      match MapZone(node)
      case Failure(e) => Failure(e)
      case Success(tz) => Success((acc.0 + [tz], acc.1))
    else if node.nodeType == COMPONENT_TYPE then
      match MapComponent(node)
      case Failure(e) => Failure(e)
      case Success(c) => Success((acc.0, acc.1 + [c]))
    else Success(acc)
  }

  /** The dataflows mapped so far, or the first validation error, over the edges in order. */
  function MapEdges(edges: seq<Edge>): Result<seq<DataFlow>, ValidationError>
    decreases |edges|
  {
    if edges == [] then Success([])
    else
      match MapEdges(edges[..|edges| - 1])
      case Failure(e) => Failure(e)
      case Success(flows) =>
        match MapFlow(edges[|edges| - 1])
        case Failure(e) => Failure(e)
        case Success(df) => Success(flows + [df])
  }

  /** The zone with the reserved id, rated 0 in every dimension. */
  const DEFAULT_ZONE: TrustZone :=
    TrustZone(DEFAULT_ZONE_ID, DEFAULT_ZONE_NAME, None, [], ZONE_TYPE_LITERAL, TrustRating(0, 0, 0), map[])

  predicate HasZone(zones: seq<TrustZone>, id: string) {
    exists i :: 0 <= i < |zones| && zones[i].id == id
  }

  /** The default zone is appended exactly when no zone has its id; the zones given come first, unchanged. */
  function WithDefaultZone(zones: seq<TrustZone>): (r: seq<TrustZone>)
    ensures HasZone(r, DEFAULT_ZONE_ID)
    ensures |r| == if HasZone(zones, DEFAULT_ZONE_ID) then |zones| else |zones| + 1
    ensures r[..|zones|] == zones
    ensures !HasZone(zones, DEFAULT_ZONE_ID) ==> r[|zones|] == DEFAULT_ZONE
  {
    if HasZone(zones, DEFAULT_ZONE_ID) then zones
    else
      var r := zones + [DEFAULT_ZONE];
      assert r[|zones|].id == DEFAULT_ZONE_ID;
      r
  }

  /** The project an export yields, or the validation error that stops it. */
  function Export(projectId: string, projectName: string, nodes: seq<Node>, edges: seq<Edge>)
    : Result<OTMProject, ValidationError>
  {
    match MapNodes(nodes)
    case Failure(e) => Failure(e)
    case Success((zones, comps)) =>
      match MapEdges(edges)
      case Failure(e) => Failure(e)
      case Success(flows) =>
        NewProject(Some(DEFAULT_OTM_VERSION), map["id" := projectId, "name" := projectName],
                   WithDefaultZone(zones), comps, Some(flows))
  }

  /** `to_otm`: a loop over the nodes, a loop over the edges, the default zone, then the project. */
  method ToOtm(projectId: string, projectName: string, nodes: seq<Node>, edges: seq<Edge>)
    returns (r: Result<OTMProject, ValidationError>)
    ensures r == Export(projectId, projectName, nodes, edges)
  {
    var zones: seq<TrustZone> := [];
    var comps: seq<Component> := [];
    var i := 0;
    while i < |nodes|
      invariant 0 <= i <= |nodes|
      invariant MapNodes(nodes[..i]) == Success((zones, comps))
    {
      var node := nodes[i];
      assert nodes[..i + 1][..i] == nodes[..i];
      if node.nodeType == ZONE_TYPE {
        var tz := MapZone(node);
        if tz.Failure? {
          assert MapNodes(nodes[..i + 1]).Failure?;
          FailureSticks(nodes, i + 1);
          return Failure(tz.error);
        }
        zones := zones + [tz.value];
      } else if node.nodeType == COMPONENT_TYPE {
        var c := MapComponent(node);
        if c.Failure? {
          assert MapNodes(nodes[..i + 1]).Failure?;
          FailureSticks(nodes, i + 1);
          return Failure(c.error);
        }
        comps := comps + [c.value];
      }
      i := i + 1;
    }
    assert nodes[..|nodes|] == nodes;

    var flows: seq<DataFlow> := [];
    var k := 0;
    while k < |edges|
      invariant 0 <= k <= |edges|
      invariant MapEdges(edges[..k]) == Success(flows)
    {
      assert edges[..k + 1][..k] == edges[..k];
      MapFlowSucceeds(edges[k]);
      flows := flows + [MapFlow(edges[k]).value];
      k := k + 1;
    }
    assert edges[..|edges|] == edges;

    var allZones := zones;
    if !(exists j :: 0 <= j < |zones| && zones[j].id == DEFAULT_ZONE_ID) {
      allZones := zones + [DEFAULT_ZONE];
    }
    r := NewProject(Some(DEFAULT_OTM_VERSION), map["id" := projectId, "name" := projectName], allZones, comps, Some(flows));
  }

  /** Once a prefix of the nodes fails, every longer prefix fails with the same error. */
  lemma {:induction false} FailureSticks(nodes: seq<Node>, n: int)
    requires 0 <= n <= |nodes|
    requires MapNodes(nodes[..n]).Failure?
    ensures MapNodes(nodes) == MapNodes(nodes[..n])
    decreases |nodes| - n
  {
    if n == |nodes| {
      assert nodes[..n] == nodes;
    } else {
      assert nodes[..n + 1][..n] == nodes[..n];
      FailureSticks(nodes, n + 1);
    }
  }

  /** The zone nodes, in order. */
  function ZoneNodesOf(nodes: seq<Node>): (r: seq<Node>)
    ensures forall k :: 0 <= k < |r| ==> r[k].nodeType == ZONE_TYPE
  {
    if nodes == [] then []
    else ZoneNodesOf(nodes[..|nodes| - 1]) + (if nodes[|nodes| - 1].nodeType == ZONE_TYPE then [nodes[|nodes| - 1]] else [])
  }

  /** The component nodes, in order. */
  function ComponentNodesOf(nodes: seq<Node>): (r: seq<Node>)
    ensures forall k :: 0 <= k < |r| ==> r[k].nodeType == COMPONENT_TYPE
  {
    if nodes == [] then []
    else ComponentNodesOf(nodes[..|nodes| - 1]) + (if nodes[|nodes| - 1].nodeType == COMPONENT_TYPE then [nodes[|nodes| - 1]] else [])
  }

  /**
   * The node export succeeds exactly when every node is exportable, and then yields one
   * trust zone per zone node and one component per component node, each in node order;
   * nodes of any other type contribute nothing.
   */
  lemma {:induction false} MapNodesCorrespond(nodes: seq<Node>)
    ensures MapNodes(nodes).Success? <==> forall i :: 0 <= i < |nodes| ==> Exportable(nodes[i])
    ensures MapNodes(nodes).Success? ==>
      var (zones, comps) := MapNodes(nodes).value;
      |zones| == |ZoneNodesOf(nodes)| && |comps| == |ComponentNodesOf(nodes)| &&
      (forall k :: 0 <= k < |zones| ==> MapZone(ZoneNodesOf(nodes)[k]) == Success(zones[k])) &&
      (forall k :: 0 <= k < |comps| ==> MapComponent(ComponentNodesOf(nodes)[k]) == Success(comps[k]))
  {
    MapNodesSucceeds(nodes);
    if MapNodes(nodes).Success? {
      ZonesCorrespond(nodes);
      ComponentsCorrespond(nodes);
    }
  }

  lemma {:induction false} ZonesCorrespond(nodes: seq<Node>)
    requires MapNodes(nodes).Success?
    ensures var zones := MapNodes(nodes).value.0;
      |zones| == |ZoneNodesOf(nodes)| && forall k :: 0 <= k < |zones| ==> MapZone(ZoneNodesOf(nodes)[k]) == Success(zones[k])
  {
    if nodes != [] {
      var prior := nodes[..|nodes| - 1];
      assert MapNodes(nodes) == AddNode(MapNodes(prior).value, nodes[|nodes| - 1]);
      ZonesCorrespond(prior);
      var before, after := MapNodes(prior).value.0, MapNodes(nodes).value.0;
      assert forall k :: 0 <= k < |before| ==> after[k] == before[k] && ZoneNodesOf(nodes)[k] == ZoneNodesOf(prior)[k];
    }
  }

  lemma {:induction false} ComponentsCorrespond(nodes: seq<Node>)
    requires MapNodes(nodes).Success?
    ensures var comps := MapNodes(nodes).value.1;
      |comps| == |ComponentNodesOf(nodes)| &&
      forall k :: 0 <= k < |comps| ==> MapComponent(ComponentNodesOf(nodes)[k]) == Success(comps[k])
  {
    if nodes != [] {
      var prior := nodes[..|nodes| - 1];
      assert MapNodes(nodes) == AddNode(MapNodes(prior).value, nodes[|nodes| - 1]);
      ComponentsCorrespond(prior);
      var before, after := MapNodes(prior).value.1, MapNodes(nodes).value.1;
      assert forall k :: 0 <= k < |before| ==> after[k] == before[k] && ComponentNodesOf(nodes)[k] == ComponentNodesOf(prior)[k];
    }
  }

  /** The node export succeeds exactly when every node is exportable. */
  lemma {:induction false} MapNodesSucceeds(nodes: seq<Node>)
    ensures MapNodes(nodes).Success? <==> forall i :: 0 <= i < |nodes| ==> Exportable(nodes[i])
  {
    if nodes != [] {
      var prior := nodes[..|nodes| - 1];
      MapNodesSucceeds(prior);
      if MapNodes(nodes).Success? {
        forall i | 0 <= i < |nodes|
          ensures Exportable(nodes[i])
        {
          if i < |prior| {
            assert prior[i] == nodes[i];
          }
        }
      } else if MapNodes(prior).Failure? {
        var j :| 0 <= j < |prior| && !Exportable(prior[j]);
        assert prior[j] == nodes[j];
      }
    }
  }

  /** Every edge becomes one dataflow, in order, with its endpoints. */
  lemma {:induction false} MapEdgesCorrespond(edges: seq<Edge>)
    ensures MapEdges(edges).Success?
    ensures |MapEdges(edges).value| == |edges|
    ensures forall k :: 0 <= k < |edges| ==> MapEdges(edges).value[k] == MapFlow(edges[k]).value
  {
    if edges != [] {
      var prior := edges[..|edges| - 1];
      MapEdgesCorrespond(prior);
      MapFlowSucceeds(edges[|edges| - 1]);
      assert forall k :: 0 <= k < |prior| ==> prior[k] == edges[k];
    }
  }

  /** The exported zones are valid and each carries the id of a node. */
  lemma {:induction false} ExportedZones(nodes: seq<Node>)
    requires MapNodes(nodes).Success?
    ensures var zones := MapNodes(nodes).value.0;
      forall k :: 0 <= k < |zones| ==> zones[k].Valid() && exists i :: 0 <= i < |nodes| && nodes[i].id == zones[k].id
  {
    MapNodesCorrespond(nodes);
    var zones := MapNodes(nodes).value.0;
    forall k | 0 <= k < |zones|
      ensures zones[k].Valid() && exists i :: 0 <= i < |nodes| && nodes[i].id == zones[k].id
    {
      assert MapZone(ZoneNodesOf(nodes)[k]) == Success(zones[k]);
      ZoneNodesOfIn(nodes, k);
    }
  }

  /** The exported components are valid and each carries the id of a node. */
  lemma {:induction false} ExportedComponents(nodes: seq<Node>)
    requires MapNodes(nodes).Success?
    ensures var comps := MapNodes(nodes).value.1;
      forall k :: 0 <= k < |comps| ==> comps[k].Valid() && exists i :: 0 <= i < |nodes| && nodes[i].id == comps[k].id
  {
    MapNodesCorrespond(nodes);
    var comps := MapNodes(nodes).value.1;
    forall k | 0 <= k < |comps|
      ensures comps[k].Valid() && exists i :: 0 <= i < |nodes| && nodes[i].id == comps[k].id
    {
      assert MapComponent(ComponentNodesOf(nodes)[k]) == Success(comps[k]);
      ComponentNodesOfIn(nodes, k);
    }
  }

  /**
   * A successful export is a valid project carrying the given id and name and version
   * "0.1.0", holds the default zone, and introduces no id except that zone's: every zone
   * id is a node's or the default zone's, every component id a node's, every dataflow id an edge's.
   */
  lemma {:induction false} ExportShape(projectId: string, projectName: string, nodes: seq<Node>, edges: seq<Edge>)
    requires Export(projectId, projectName, nodes, edges).Success?
    ensures var p := Export(projectId, projectName, nodes, edges).value;
      && p.Valid()
      && p.otmVersion == "0.1.0"
      && p.project == map["id" := projectId, "name" := projectName]
      && HasZone(p.trustZones, DEFAULT_ZONE_ID)
      && |p.dataflows| == |edges|
      && (forall k :: 0 <= k < |p.trustZones| ==>
            p.trustZones[k].id == DEFAULT_ZONE_ID || exists i :: 0 <= i < |nodes| && nodes[i].id == p.trustZones[k].id)
      && (forall k :: 0 <= k < |p.components| ==> exists i :: 0 <= i < |nodes| && nodes[i].id == p.components[k].id)
      && (forall k :: 0 <= k < |p.dataflows| ==> p.dataflows[k].id == edges[k].id)
  {
    MapEdgesCorrespond(edges);
    ExportedZones(nodes);
    ExportedComponents(nodes);
    var zones := MapNodes(nodes).value.0;
    var flows := MapEdges(edges).value;
    var p := Export(projectId, projectName, nodes, edges).value;
    var all := WithDefaultZone(zones);
    assert p.trustZones == all && p.components == MapNodes(nodes).value.1 && p.dataflows == flows;
    forall k | 0 <= k < |all|
      ensures all[k].Valid() && (all[k].id == DEFAULT_ZONE_ID || exists i :: 0 <= i < |nodes| && nodes[i].id == all[k].id)
    {
      if k < |zones| {
        assert all[k] == all[..|zones|][k] == zones[k];
      } else {
        assert all[k] == DEFAULT_ZONE;
      }
    }
    forall k | 0 <= k < |flows| ensures flows[k].Valid() && flows[k].id == edges[k].id {
      MapFlowSucceeds(edges[k]);
    }
  }

  lemma {:induction false} ZoneNodesOfIn(nodes: seq<Node>, k: int)
    requires 0 <= k < |ZoneNodesOf(nodes)|
    ensures exists i :: 0 <= i < |nodes| && nodes[i] == ZoneNodesOf(nodes)[k]
  {
    var prior := nodes[..|nodes| - 1];
    if k < |ZoneNodesOf(prior)| {
      ZoneNodesOfIn(prior, k);
      var i :| 0 <= i < |prior| && prior[i] == ZoneNodesOf(prior)[k];
      assert nodes[i] == prior[i];
    } else {
      assert ZoneNodesOf(nodes)[k] == nodes[|nodes| - 1];
    }
  }

  lemma {:induction false} ComponentNodesOfIn(nodes: seq<Node>, k: int)
    requires 0 <= k < |ComponentNodesOf(nodes)|
    ensures exists i :: 0 <= i < |nodes| && nodes[i] == ComponentNodesOf(nodes)[k]
  {
    var prior := nodes[..|nodes| - 1];
    if k < |ComponentNodesOf(prior)| {
      ComponentNodesOfIn(prior, k);
      var i :| 0 <= i < |prior| && prior[i] == ComponentNodesOf(prior)[k];
      assert nodes[i] == prior[i];
    } else {
      assert ComponentNodesOf(nodes)[k] == nodes[|nodes| - 1];
    }
  }
}
