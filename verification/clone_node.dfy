/** The node menu's two graph operations on the node list: creating an empty
    node of a type, and cloning the last node of a type by copying its
    machine snapshot. The menu's type list and the random id generator are
    parameters. */
module CloneNode {
  import opened Wrappers
  import opened Strings
  import opened Graph

  /** Where both operations place the new node. */
  const NewNodePosition: Position := Position(0, 50)

  /** The menu offers every listed type except "new", in list order. */
  function AllowedTypes(nodeTypes: seq<string>): (r: seq<string>)
    ensures forall t :: t in r <==> t in nodeTypes && t != "new"
    ensures |r| <= |nodeTypes|
  {
    if nodeTypes == [] then []
    else if nodeTypes[0] == "new" then AllowedTypes(nodeTypes[1..])
    else [nodeTypes[0]] + AllowedTypes(nodeTypes[1..])
  }

  /** `createNewNode`: one node of the type, with the generated id, at the
      fixed position and with no data, added after the existing nodes. */
  function CreateNewNode(nodes: seq<Node>, nodeType: string, freshId: string): (r: seq<Node>)
    ensures |r| == |nodes| + 1 && r[..|nodes|] == nodes
    ensures r[|nodes|] == Node(freshId, nodeType, NewNodePosition, EmptyData)
  {
    nodes + [Node(freshId, nodeType, NewNodePosition, EmptyData)]
  }

  /** The position of the last node of a type, or -1 when there is none. */
  function LastIndexOfType(nodes: seq<Node>, nodeType: string): (k: int)
    ensures -1 <= k < |nodes|
    ensures k == -1 <==> forall j :: 0 <= j < |nodes| ==> nodes[j].nodeType != nodeType
    ensures 0 <= k ==> nodes[k].nodeType == nodeType
    ensures forall j :: k < j < |nodes| ==> nodes[j].nodeType != nodeType
  {
    if nodes == [] then -1
    else if nodes[|nodes| - 1].nodeType == nodeType then |nodes| - 1
    else LastIndexOfType(nodes[..|nodes| - 1], nodeType)
  }

  /** The clone's data: only the source's machine snapshot. */
  function ClonedData(source: Node): NodeData
  {
    EmptyData.(xState := source.data.xState)
  }

  /** `cloneNode` as written: with no node of the type it falls back to
      `createNewNode`; otherwise the clone copies the last such node's
      snapshot and takes one more than the node count as its id. */
  function CloneNode(nodes: seq<Node>, nodeType: string, freshId: string): (r: seq<Node>)
    ensures |r| == |nodes| + 1 && r[..|nodes|] == nodes
    ensures LastIndexOfType(nodes, nodeType) == -1 ==> r == CreateNewNode(nodes, nodeType, freshId)
    ensures LastIndexOfType(nodes, nodeType) >= 0 ==>
              var source := nodes[LastIndexOfType(nodes, nodeType)];
              r[|nodes|] == Node(NatToString(|nodes| + 1), nodeType, NewNodePosition, ClonedData(source))
  {
    var k := LastIndexOfType(nodes, nodeType);
    if k == -1 then CreateNewNode(nodes, nodeType, freshId)
    else nodes + [Node(NatToString(|nodes| + 1), nodeType, NewNodePosition, ClonedData(nodes[k]))]
  }

  /** The clone copies the snapshot of the latest node of its type and no
      other field: the job, paths and form data start empty. */
  lemma CloneCopiesLatestSnapshot(nodes: seq<Node>, nodeType: string, freshId: string, j: int)
    requires 0 <= j < |nodes| && nodes[j].nodeType == nodeType
    ensures var added := CloneNode(nodes, nodeType, freshId)[|nodes|];
            && added.nodeType == nodeType
            && added.data.status.None? && added.data.jobId.None? && added.data.remotePath.None?
            && exists k :: j <= k < |nodes| && nodes[k].nodeType == nodeType && added.data.xState == nodes[k].data.xState
  {
    var k := LastIndexOfType(nodes, nodeType);
    assert j <= k;
  }

  /** No two nodes share an id. */
  predicate UniqueIds(nodes: seq<Node>)
  {
    forall i, j :: 0 <= i < j < |nodes| ==> nodes[i].id != nodes[j].id
  }

  /** As written the clone's id can already be taken: clone a node, delete
      the original, and clone again; the list then holds one node, with id
      "2", and the second clone is given "2" as well. */
  lemma CloneDuplicatesId(data: NodeData)
    ensures var nodes := [Node("2", "dataset", NewNodePosition, data)];
            && UniqueIds(nodes)
            && !UniqueIds(CloneNode(nodes, "dataset", "fresh"))
  {
    var nodes := [Node("2", "dataset", NewNodePosition, data)];
    assert NatToString(2) == "2";
    assert CloneNode(nodes, "dataset", "fresh")[1].id == "2";
  }

  // ---------------------------------------------------------------------------
  // A clone id that is never taken
  // ---------------------------------------------------------------------------

  predicate AllDigits(s: string)
  {
    forall k :: 0 <= k < |s| ==> IsDigit(s[k])
  }

  /** The number an id spells, for ids made only of digits. */
  function NumericId(id: string): (n: Option<nat>)
    ensures n.Some? <==> AllDigits(id)
  {
    if AllDigits(id) then Some(ParseNat(id)) else None
  }

  /** The largest number spelled by a numeric id in the list, or 0. */
  function MaxNumericId(nodes: seq<Node>): (m: nat)
    ensures forall j :: 0 <= j < |nodes| && NumericId(nodes[j].id).Some? ==> NumericId(nodes[j].id).value <= m
  {
    if nodes == [] then 0
    else
      var rest := MaxNumericId(nodes[1..]);
      var here := NumericId(nodes[0].id).GetOr(0);
      assert forall j :: 1 <= j < |nodes| ==> nodes[j] == nodes[1..][j - 1];
      if here > rest then here else rest
  }

  /** One more than every numeric id in the list. */
  function NextId(nodes: seq<Node>): (id: string)
    ensures forall j :: 0 <= j < |nodes| ==> nodes[j].id != id
  {
    var id := NatToString(MaxNumericId(nodes) + 1);
    ParseNatToString(MaxNumericId(nodes) + 1);
    assert NumericId(id) == Some(MaxNumericId(nodes) + 1);
    id
  }

  /** The clone with a fresh id: one more than every numeric id in the list
      rather than one more than the node count. */
  function CloneNodeFresh(nodes: seq<Node>, nodeType: string, freshId: string): (r: seq<Node>)
    ensures |r| == |nodes| + 1 && r[..|nodes|] == nodes
    ensures LastIndexOfType(nodes, nodeType) == -1 ==> r == CreateNewNode(nodes, nodeType, freshId)
    ensures LastIndexOfType(nodes, nodeType) >= 0 ==>
              var source := nodes[LastIndexOfType(nodes, nodeType)];
              r[|nodes|] == Node(NextId(nodes), nodeType, NewNodePosition, ClonedData(source))
  {
    var k := LastIndexOfType(nodes, nodeType);
    if k == -1 then CreateNewNode(nodes, nodeType, freshId)
    else nodes + [Node(NextId(nodes), nodeType, NewNodePosition, ClonedData(nodes[k]))]
  }

  /** Adding a node whose id no node has keeps the ids unique. */
  lemma AppendKeepsUniqueIds(nodes: seq<Node>, n: Node)
    requires UniqueIds(nodes)
    requires forall j :: 0 <= j < |nodes| ==> nodes[j].id != n.id
    ensures UniqueIds(nodes + [n])
  {
    var r := nodes + [n];
    forall i, j | 0 <= i < j < |r|
      ensures r[i].id != r[j].id
    {
      if j == |nodes| {
        assert r[i] == nodes[i];
      } else {
        assert r[i] == nodes[i] && r[j] == nodes[j];
      }
    }
  }

  /** With the fresh id, cloning keeps the ids unique, provided the
      generated id of the fallback is not taken either. */
  lemma CloneFreshKeepsUniqueIds(nodes: seq<Node>, nodeType: string, freshId: string)
    requires UniqueIds(nodes)
    requires forall j :: 0 <= j < |nodes| ==> nodes[j].id != freshId
    ensures UniqueIds(CloneNodeFresh(nodes, nodeType, freshId))
  {
    var r := CloneNodeFresh(nodes, nodeType, freshId);
    assert r == nodes + [r[|nodes|]];
    AppendKeepsUniqueIds(nodes, r[|nodes|]);
  }
}
