/** The workboard graph as the nodes see it: node records with their
    optional fields, positions and edges, and the two lookups the nodes make
    (`edges.find` by target and `nodes.find` by id). */
module Graph {
  import opened Wrappers
  import opened Lifecycle
  import opened Forms

  datatype Position = Position(x: int, y: int)

  /** What a finished dataset node records about its dataset. */
  datatype DatasetData = DatasetData(name: string, form: DatasetForm)

  /** What a finished network node records about its network (`label` and
      `networkType` in the source). */
  datatype NetworkData = NetworkData(networkLabel: string, networkType: string)

  /** What a finetune node records when its job is submitted. */
  datatype FinetuneData = FinetuneData(
    sourceDatasetName: string,
    sourceNetworkLabel: string,
    sourceNetworkType: string,
    form: FinetuneForm)

  /** What an augmentation node records when its job is submitted. */
  datatype AugmentationData = AugmentationData(
    sourceDatasetName: string,
    form: AugmentationForm,
    name: string,
    remotePath: string)

  /** The data record of a node. Every field may be absent: a freshly added
      node carries no data at all. The free-text `message` and the
      `updatedAt` timestamp are not modelled. */
  datatype NodeData = NodeData(
    status: Option<Status>,
    workspacePath: Option<string>,
    jobId: Option<string>,
    jobStatus: Option<string>,
    remotePath: Option<string>,
    xState: Option<string>,
    datasetData: Option<DatasetData>,
    networkData: Option<NetworkData>,
    finetuneData: Option<FinetuneData>,
    augmentationData: Option<AugmentationData>)

  /** The record of a node created with `data: {}`. */
  const EmptyData: NodeData :=
    NodeData(None, None, None, None, None, None, None, None, None, None)

  datatype Node = Node(id: string, nodeType: string, position: Position, data: NodeData)

  datatype Edge = Edge(source: string, target: string)

  /** A string field inside a template literal: an absent field is rendered
      as the text "undefined". */
  function Render(field: Option<string>): string
  {
    field.GetOr("undefined")
  }

  /** A string field tested for truthiness (`!!field`): present and not empty. */
  predicate Truthy(field: Option<string>)
  {
    field.Some? && field.value != ""
  }

  /** The position of the first edge into `id`, or -1. */
  function FirstEdgeIndex(edges: seq<Edge>, id: string): (k: int)
    ensures -1 <= k < |edges|
    ensures k == -1 <==> forall j :: 0 <= j < |edges| ==> edges[j].target != id
    ensures 0 <= k ==> edges[k].target == id && forall j :: 0 <= j < k ==> edges[j].target != id
  {
    if edges == [] then -1
    else if edges[0].target == id then 0
    else
      var k := FirstEdgeIndex(edges[1..], id);
      if k == -1 then -1 else k + 1
  }

  /** `edges.find((edge) => edge.target === id)`. */
  function FirstEdgeInto(edges: seq<Edge>, id: string): (r: Option<Edge>)
    ensures r.None? <==> forall j :: 0 <= j < |edges| ==> edges[j].target != id
    ensures r.Some? ==> exists k :: 0 <= k < |edges| && edges[k] == r.value && edges[k].target == id &&
                           forall j :: 0 <= j < k ==> edges[j].target != id
  {
    var k := FirstEdgeIndex(edges, id);
    if k == -1 then None else Some(edges[k])
  }

  /** The position of the first node with id `id`, or -1. */
  function NodeIndex(nodes: seq<Node>, id: string): (k: int)
    ensures -1 <= k < |nodes|
    ensures k == -1 <==> forall j :: 0 <= j < |nodes| ==> nodes[j].id != id
    ensures 0 <= k ==> nodes[k].id == id && forall j :: 0 <= j < k ==> nodes[j].id != id
  {
    if nodes == [] then -1
    else if nodes[0].id == id then 0
    else
      var k := NodeIndex(nodes[1..], id);
      if k == -1 then -1 else k + 1
  }

  /** `nodes.find((node) => node.id === id)`. */
  function FindNode(nodes: seq<Node>, id: string): (r: Option<Node>)
    ensures r.None? <==> forall j :: 0 <= j < |nodes| ==> nodes[j].id != id
    ensures r.Some? ==> r.value.id == id && r.value in nodes
    ensures r.Some? ==> exists k :: 0 <= k < |nodes| && nodes[k] == r.value && forall j :: 0 <= j < k ==> nodes[j].id != id
  {
    var k := NodeIndex(nodes, id);
    if k == -1 then None else Some(nodes[k])
  }
}
