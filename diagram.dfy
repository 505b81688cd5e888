/**
 * The editor's diagram store (client/src/store/diagramStore.ts): the node and edge lists,
 * the selected node, and the one edit the store defines itself, a shallow merge of new
 * data into one node.
 */
module Diagram {
  import opened Wrappers
  import opened Values

  /** The React Flow node types the editor uses. */
  const ZONE_TYPE: string := "otmTrustZone"
  const COMPONENT_TYPE: string := "otmComponent"

  datatype Point = Point(x: real, y: real)
  datatype Size = Size(width: real, height: real)

  datatype RiskDim = Confidentiality | Integrity | Availability

  /** A risk object as the editor holds it: a JavaScript object that may lack any of the three keys. */
  datatype Risk = Risk(confidentiality: Option<int>, integrity: Option<int>, availability: Option<int>) {
    function Get(d: RiskDim): Option<int> {
      match d
      case Confidentiality => confidentiality
      case Integrity => integrity
      case Availability => availability
    }

    /** `{ ...risk, [d]: v }` */
    function With(d: RiskDim, v: int): (r: Risk)
      ensures r.Get(d) == Some(v)
      ensures forall e :: e != d ==> r.Get(e) == Get(e)
    {
      match d
      case Confidentiality => this.(confidentiality := Some(v))
      case Integrity => this.(integrity := Some(v))
      case Availability => this.(availability := Some(v))
    }

    predicate Complete() {
      confidentiality.Some? && integrity.Some? && availability.Some?
    }
  }

  function FullRisk(c: int, i: int, a: int): Risk {
    Risk(Some(c), Some(i), Some(a))
  }

  /**
   * A node's `data` object (OTMNodeData). `None` is a key that is absent; the same
   * record, mostly `None`, is the partial object `updateNodeData` merges in.
   */
  datatype NodeData = NodeData(
    labelText: Option<string>,
    description: Option<string>,
    otmType: Option<string>,
    tags: Option<seq<string>>,
    risk: Option<Risk>,
    attributes: Option<map<string, Value>>)

  /** The empty object `{}`. */
  const NO_DATA: NodeData := NodeData(None, None, None, None, None, None)

  /** The set of keys an object holds. */
  function Keys(d: NodeData): set<string> {
    (if d.labelText.Some? then {"label"} else {})
    + (if d.description.Some? then {"description"} else {})
    + (if d.otmType.Some? then {"otmType"} else {})
    + (if d.tags.Some? then {"tags"} else {})
    + (if d.risk.Some? then {"risk"} else {})
    + (if d.attributes.Some? then {"attributes"} else {})
  }

  function Override<T>(prior: Option<T>, patch: Option<T>): Option<T> {
    if patch.Some? then patch else prior
  }

  /** `{ ...prior, ...patch }`: a key present in `patch` takes its value from it, any other keeps its prior value. */
  function Merge(prior: NodeData, patch: NodeData): NodeData {
    NodeData(
      Override(prior.labelText, patch.labelText),
      Override(prior.description, patch.description),
      Override(prior.otmType, patch.otmType),
      Override(prior.tags, patch.tags),
      Override(prior.risk, patch.risk),
      Override(prior.attributes, patch.attributes))
  }

  /** Merging adds exactly the keys of the patch. */
  lemma MergeKeys(prior: NodeData, patch: NodeData)
    ensures Keys(Merge(prior, patch)) == Keys(prior) + Keys(patch)
  {
    var m := Merge(prior, patch);
    forall k ensures k in Keys(m) <==> k in Keys(prior) || k in Keys(patch) {
    }
  }

  /** Merging the empty object changes nothing, and merging the same patch twice is merging it once. */
  lemma MergeIdentityAndIdempotence(prior: NodeData, patch: NodeData)
    ensures Merge(prior, NO_DATA) == prior
    ensures Merge(Merge(prior, patch), patch) == Merge(prior, patch)
  {
  }

  /** Two successive merges are one merge of the combined patch, the later one winning. */
  lemma MergeAssociative(prior: NodeData, p: NodeData, q: NodeData)
    ensures Merge(Merge(prior, p), q) == Merge(prior, Merge(p, q))
  {
  }

  datatype Side = Left | Right | Top | Bottom

  /**
   * A React Flow node. `style` is the node's style object (absent means `{}`);
   * `measured` is the size React Flow measured on screen, if any.
   */
  datatype Node = Node(
    id: string,
    nodeType: string,
    position: Point,
    data: NodeData,
    parentNode: Option<string>,
    extent: Option<string>,
    style: map<string, Value>,
    measured: Option<Size>,
    sourcePosition: Option<Side>,
    targetPosition: Option<Side>)

  /** The node names an owner: its `parentNode` is present and not the empty string (both languages' truthiness). */
  predicate HasOwner(node: Node) {
    node.parentNode.Some? && node.parentNode.value != ""
  }

  datatype EdgeData = EdgeData(labelText: Option<string>, bidirectional: Option<bool>, attributes: Option<map<string, Value>>)

  datatype Edge = Edge(id: string, source: string, target: string, labelText: Option<string>, data: Option<EdgeData>)

  function Ids(nodes: seq<Node>): seq<string> {
    seq(|nodes|, i requires 0 <= i < |nodes| => nodes[i].id)
  }

  /** The node after `updateNodeData(id, patch)`: the target's data is merged, every other field is untouched. */
  function UpdateOne(node: Node, id: string, patch: NodeData): (r: Node)
    ensures r == node.(data := r.data)
  {
    if node.id == id then node.(data := Merge(node.data, patch)) else node
  }

  /** `nodes.map(node => node.id === id ? { ...node, data: { ...node.data, ...patch } } : node)` */
  function UpdatedNodes(nodes: seq<Node>, id: string, patch: NodeData): seq<Node> {
    if nodes == [] then [] else [UpdateOne(nodes[0], id, patch)] + UpdatedNodes(nodes[1..], id, patch)
  }

  /** Position by position: the list keeps its length and order, and only matching nodes change, only in `data`. */
  lemma {:induction false} UpdatedNodesAt(nodes: seq<Node>, id: string, patch: NodeData, i: int)
    requires 0 <= i < |nodes|
    ensures |UpdatedNodes(nodes, id, patch)| == |nodes|
    ensures UpdatedNodes(nodes, id, patch)[i] ==
      if nodes[i].id == id then nodes[i].(data := Merge(nodes[i].data, patch)) else nodes[i]
  {
    if i > 0 {
      UpdatedNodesAt(nodes[1..], id, patch, i - 1);
    } else if |nodes| > 1 {
      UpdatedNodesAt(nodes[1..], id, patch, 0);
    }
  }

  /** The node list keeps its length and its ids, in order. */
  lemma {:induction false} UpdatedNodesKeepIds(nodes: seq<Node>, id: string, patch: NodeData)
    ensures |UpdatedNodes(nodes, id, patch)| == |nodes|
    ensures Ids(UpdatedNodes(nodes, id, patch)) == Ids(nodes)
  {
    if nodes != [] {
      UpdatedNodesAt(nodes, id, patch, 0);
      forall i | 0 <= i < |nodes|
        ensures UpdatedNodes(nodes, id, patch)[i].id == nodes[i].id
      {
        UpdatedNodesAt(nodes, id, patch, i);
      }
    }
  }

  /** An id no node has leaves the list as it was. */
  lemma {:induction false} UpdateUnknownId(nodes: seq<Node>, id: string, patch: NodeData)
    requires forall i :: 0 <= i < |nodes| ==> nodes[i].id != id
    ensures UpdatedNodes(nodes, id, patch) == nodes
  {
    if nodes != [] {
      UpdateUnknownId(nodes[1..], id, patch);
      assert nodes == [nodes[0]] + nodes[1..];
    }
  }

  /** Every node that names an owner names a trust zone of the same list. */
  predicate WellContained(nodes: seq<Node>) {
    forall i :: 0 <= i < |nodes| && nodes[i].parentNode.Some? ==>
      exists j :: 0 <= j < |nodes| && nodes[j].id == nodes[i].parentNode.value && nodes[j].nodeType == ZONE_TYPE
  }

  /** The diagram the editor opens with. */
  function InitialNodes(): seq<Node> {
    [ Node("tz-1", ZONE_TYPE, Point(100.0, 100.0),
           NO_DATA.(labelText := Some("Public Internet"), risk := Some(FullRisk(10, 10, 10))),
           None, None, map["width" := Num(400.0), "height" := Num(300.0)], None, None, None),
      Node("c-1", COMPONENT_TYPE, Point(50.0, 50.0),
           NO_DATA.(labelText := Some("Web Load Balancer"), otmType := Some("reverse-proxy"), tags := Some(["nginx"])),
           Some("tz-1"), Some("parent"), map[], None, None, None) ]
  }

  /** The initial component sits in the initial zone, so containment is well formed from the start. */
  lemma InitialWellContained()
    ensures WellContained(InitialNodes())
    ensures Ids(InitialNodes()) == ["tz-1", "c-1"]
  {
    var ns := InitialNodes();
    assert ns[0].id == "tz-1" && ns[0].nodeType == ZONE_TYPE;
  }

  /** The zustand store: its three fields change only through these methods. */
  class DiagramStore {
    var nodes: seq<Node>
    var edges: seq<Edge>
    var selectedNodeId: Option<string>

    constructor ()
      ensures nodes == InitialNodes() && edges == [] && selectedNodeId == None
    {
      nodes := InitialNodes();
      edges := [];
      selectedNodeId := None;
    }

    method SetSelectedNode(id: Option<string>)
      modifies this
      ensures selectedNodeId == id
      ensures nodes == old(nodes) && edges == old(edges)
    {
      selectedNodeId := id;
    }

    method UpdateNodeData(id: string, patch: NodeData)
      modifies this
      ensures nodes == UpdatedNodes(old(nodes), id, patch)
      ensures edges == old(edges) && selectedNodeId == old(selectedNodeId)
    {
      nodes := UpdatedNodes(nodes, id, patch);
    }

    /** Replaces the whole diagram (used by the top bar; its definition is not part of this model). */
    method LoadDiagram(newNodes: seq<Node>, newEdges: seq<Edge>)
      modifies this
      ensures nodes == newNodes && edges == newEdges
      ensures selectedNodeId == old(selectedNodeId)
    {
      nodes := newNodes;
      edges := newEdges;
    }
  }
}
