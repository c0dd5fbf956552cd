/** The finetune node: the walk over the edges that finds the dataset and
    network it finetunes, the checks before a submission, and the updates of
    its record by a submission and a status answer. A cancellation is
    `JobRecord.CancelUpdate`. */
module FinetuneNode {
  import opened Wrappers
  import opened Lifecycle
  import opened Forms
  import opened Graph
  import JobRecord

  /** Some edge into `id` comes from node `n`. */
  predicate Upstream(edges: seq<Edge>, id: string, n: Node)
  {
    exists k :: 0 <= k < |edges| && edges[k].target == id && edges[k].source == n.id
  }

  /** The nodes the edges into `id` come from, in edge order; an edge whose
      source is not on the board gives `None`. */
  function SourceNodes(edges: seq<Edge>, nodes: seq<Node>, id: string): (r: seq<Option<Node>>)
    ensures |r| <= |edges|
    ensures forall k :: 0 <= k < |r| && r[k].Some? ==> r[k].value in nodes && Upstream(edges, id, r[k].value)
  {
    if edges == [] then []
    else
      var rest := SourceNodes(edges[1..], nodes, id);
      assert forall k :: 0 <= k < |rest| && rest[k].Some? ==> Upstream(edges, id, rest[k].value) by {
        forall k | 0 <= k < |rest| && rest[k].Some?
          ensures Upstream(edges, id, rest[k].value)
        {
          var j :| 0 <= j < |edges[1..]| && edges[1..][j].target == id && edges[1..][j].source == rest[k].value.id;
          assert edges[j + 1] == edges[1..][j];
        }
      }
      if edges[0].target == id then [FindNode(nodes, edges[0].source)] + rest else rest
  }

  /** A node found on the board, of type `t` (`node?.type === t`). */
  predicate OfType(n: Option<Node>, t: string)
  {
    n.Some? && n.value.nodeType == t
  }

  /** Splitting the edge list splits the sources at the same place: each
      edge contributes its own source, independently of the others. */
  lemma {:induction false} SourceNodesAppend(a: seq<Edge>, b: seq<Edge>, nodes: seq<Node>, id: string)
    ensures SourceNodes(a + b, nodes, id) == SourceNodes(a, nodes, id) + SourceNodes(b, nodes, id)
    decreases |a|
  {
    if a == [] {
      assert a + b == b;
    } else {
      assert (a + b)[0] == a[0];
      assert (a + b)[1..] == a[1..] + b;
      SourceNodesAppend(a[1..], b, nodes, id);
    }
  }

  /** The sources, one edge at a time: an edge into `id` appends the node its
      source names (none when it is not on the board), any other edge
      appends nothing. With `SourceNodes([]) == []` this fixes the list:
      one entry per edge into `id`, in edge order. */
  lemma SourceNodesInEdgeOrder(edges: seq<Edge>, nodes: seq<Node>, id: string, j: int)
    requires 0 <= j < |edges|
    ensures SourceNodes([], nodes, id) == []
    ensures SourceNodes(edges[..j + 1], nodes, id) ==
              SourceNodes(edges[..j], nodes, id) +
              (if edges[j].target == id then [FindNode(nodes, edges[j].source)] else [])
  {
    assert edges[..j + 1] == edges[..j] + [edges[j]];
    SourceNodesAppend(edges[..j], [edges[j]], nodes, id);
    assert [edges[j]][1..] == [];
  }

  /** The first source present on the board with node type `t`. */
  function FirstOfType(sources: seq<Option<Node>>, t: string): (r: Option<Node>)
    ensures r.Some? ==> r.value.nodeType == t
    ensures r.Some? ==> exists k :: && 0 <= k < |sources| && sources[k] == r
                                    && forall j :: 0 <= j < k ==> !OfType(sources[j], t)
    ensures r.None? <==> forall k :: 0 <= k < |sources| ==> !OfType(sources[k], t)
  {
    if sources == [] then None
    else if OfType(sources[0], t) then sources[0]
    else
      var r := FirstOfType(sources[1..], t);
      assert r.Some? ==> exists k :: && 0 <= k < |sources| && sources[k] == r
                                     && forall j :: 0 <= j < k ==> !OfType(sources[j], t) by {
        if r.Some? {
          var k :| && 0 <= k < |sources[1..]| && sources[1..][k] == r
                   && forall j :: 0 <= j < k ==> !OfType(sources[1..][j], t);
          assert sources[k + 1] == r;
          forall j | 0 <= j < k + 1
            ensures !OfType(sources[j], t)
          {
            if j > 0 { assert sources[j] == sources[1..][j - 1]; }
          }
        }
      }
      assert (forall k :: 0 <= k < |sources| ==> !OfType(sources[k], t)) <==>
             (forall k :: 0 <= k < |sources[1..]| ==> !OfType(sources[1..][k], t)) by {
        assert forall k :: 0 < k < |sources| ==> sources[k] == sources[1..][k - 1];
      }
      r
  }

  /** What the upstream nodes say about the dataset and network. */
  datatype SourceData = SourceData(datasetName: Option<string>, networkLabel: Option<string>, networkType: Option<string>)

  function DatasetNameOf(n: Option<Node>): Option<string>
  {
    if n.Some? && n.value.data.datasetData.Some? then Some(n.value.data.datasetData.value.name) else None
  }

  function AugmentedSourceNameOf(n: Option<Node>): Option<string>
  {
    if n.Some? && n.value.data.augmentationData.Some? then Some(n.value.data.augmentationData.value.sourceDatasetName) else None
  }

  function NetworkLabelOf(n: Option<Node>): Option<string>
  {
    if n.Some? && n.value.data.networkData.Some? then Some(n.value.data.networkData.value.networkLabel) else None
  }

  function NetworkTypeOf(n: Option<Node>): Option<string>
  {
    if n.Some? && n.value.data.networkData.Some? then Some(n.value.data.networkData.value.networkType) else None
  }

  function FinetuneLabelOf(n: Option<Node>): Option<string>
  {
    if n.Some? && n.value.data.finetuneData.Some? then Some(n.value.data.finetuneData.value.sourceNetworkLabel) else None
  }

  function FinetuneTypeOf(n: Option<Node>): Option<string>
  {
    if n.Some? && n.value.data.finetuneData.Some? then Some(n.value.data.finetuneData.value.sourceNetworkType) else None
  }

  /** The edge leads into `id` from a node on the board of type `t`. */
  predicate Feeds(e: Edge, nodes: seq<Node>, id: string, t: string)
  {
    e.target == id && OfType(FindNode(nodes, e.source), t)
  }

  /** The position of the first edge that feeds `id` from a node of type
      `t`, or -1. */
  function FirstFeedIndex(edges: seq<Edge>, nodes: seq<Node>, id: string, t: string): (k: int)
    ensures -1 <= k < |edges|
    ensures k == -1 <==> forall j :: 0 <= j < |edges| ==> !Feeds(edges[j], nodes, id, t)
    ensures 0 <= k ==> Feeds(edges[k], nodes, id, t) && forall j :: 0 <= j < k ==> !Feeds(edges[j], nodes, id, t)
  {
    if edges == [] then -1
    else if Feeds(edges[0], nodes, id, t) then 0
    else
      var k := FirstFeedIndex(edges[1..], nodes, id, t);
      assert forall j :: 0 < j < |edges| ==> edges[j] == edges[1..][j - 1];
      if k == -1 then -1 else k + 1
  }

  /** The lookups read directly off the edge list: the node named by the
      first edge into `id` whose source is on the board with type `t`. */
  function FirstSource(edges: seq<Edge>, nodes: seq<Node>, id: string, t: string): (r: Option<Node>)
    ensures r.None? <==> forall k :: 0 <= k < |edges| ==> !Feeds(edges[k], nodes, id, t)
    ensures r.Some? ==> exists k :: && 0 <= k < |edges| && Feeds(edges[k], nodes, id, t)
                                    && FindNode(nodes, edges[k].source) == r
                                    && forall j :: 0 <= j < k ==> !Feeds(edges[j], nodes, id, t)
  {
    var k := FirstFeedIndex(edges, nodes, id, t);
    if k == -1 then None else FindNode(nodes, edges[k].source)
  }

  /** Looking a type up in the source list is looking it up along the edges. */
  lemma {:induction false} FirstOfTypeIsFirstSource(edges: seq<Edge>, nodes: seq<Node>, id: string, t: string)
    ensures FirstOfType(SourceNodes(edges, nodes, id), t) == FirstSource(edges, nodes, id, t)
    decreases |edges|
  {
    if edges != [] {
      FirstOfTypeIsFirstSource(edges[1..], nodes, id, t);
      assert FirstFeedIndex(edges, nodes, id, t) ==
               if Feeds(edges[0], nodes, id, t) then 0
               else if FirstFeedIndex(edges[1..], nodes, id, t) == -1 then -1
               else FirstFeedIndex(edges[1..], nodes, id, t) + 1;
      var rest := SourceNodes(edges[1..], nodes, id);
      if edges[0].target == id {
        var sources := [FindNode(nodes, edges[0].source)] + rest;
        assert sources[1..] == rest;
      }
    }
  }

  /** `getSourceData`: the dataset name comes from the first upstream dataset
      node, or else from the first upstream augmentation's source dataset;
      the network label and type come from the first upstream network node,
      or else from the first upstream finetune node's source network. Every
      value found is read from a node some edge into `id` comes from. */
  function GetSourceData(edges: seq<Edge>, nodes: seq<Node>, id: string): (r: SourceData)
    ensures r.datasetName.Some? ==>
              exists n :: n in nodes && Upstream(edges, id, n) &&
                ((n.nodeType == "dataset" && n.data.datasetData.Some? && n.data.datasetData.value.name == r.datasetName.value) ||
                 (n.nodeType == "augmentation" && n.data.augmentationData.Some? &&
                  n.data.augmentationData.value.sourceDatasetName == r.datasetName.value))
    ensures r.networkLabel.Some? ==>
              exists n :: n in nodes && Upstream(edges, id, n) &&
                ((n.nodeType == "network" && n.data.networkData.Some? && n.data.networkData.value.networkLabel == r.networkLabel.value) ||
                 (n.nodeType == "finetune" && n.data.finetuneData.Some? &&
                  n.data.finetuneData.value.sourceNetworkLabel == r.networkLabel.value))
    ensures r.networkType.Some? ==>
              exists n :: n in nodes && Upstream(edges, id, n) &&
                ((n.nodeType == "network" && n.data.networkData.Some? && n.data.networkData.value.networkType == r.networkType.value) ||
                 (n.nodeType == "finetune" && n.data.finetuneData.Some? &&
                  n.data.finetuneData.value.sourceNetworkType == r.networkType.value))
  {
    var sources := SourceNodes(edges, nodes, id);
    var dataset := FirstOfType(sources, "dataset");
    var augmented := FirstOfType(sources, "augmentation");
    var network := FirstOfType(sources, "network");
    var finetune := FirstOfType(sources, "finetune");
    SourceData(
      DatasetNameOf(dataset).OrElse(AugmentedSourceNameOf(augmented)),
      NetworkLabelOf(network).OrElse(FinetuneLabelOf(finetune)),
      NetworkTypeOf(network).OrElse(FinetuneTypeOf(finetune)))
  }

  /** Which node each value comes from, for every board: the dataset name is
      that of the first upstream dataset node when it holds dataset data,
      and otherwise the source name of the first upstream augmentation; the
      network label and type are those of the first upstream network node
      when it holds network data, and otherwise those recorded by the first
      upstream finetune node. */
  lemma GetSourceDataByEdges(edges: seq<Edge>, nodes: seq<Node>, id: string)
    ensures var r := GetSourceData(edges, nodes, id);
            var dataset := FirstSource(edges, nodes, id, "dataset");
            var augmented := FirstSource(edges, nodes, id, "augmentation");
            && (DatasetNameOf(dataset).Some? ==> r.datasetName == DatasetNameOf(dataset))
            && (DatasetNameOf(dataset).None? ==> r.datasetName == AugmentedSourceNameOf(augmented))
    ensures var r := GetSourceData(edges, nodes, id);
            var network := FirstSource(edges, nodes, id, "network");
            var finetune := FirstSource(edges, nodes, id, "finetune");
            && (NetworkLabelOf(network).Some? ==> r.networkLabel == NetworkLabelOf(network) && r.networkType == NetworkTypeOf(network))
            && (NetworkLabelOf(network).None? ==> r.networkLabel == FinetuneLabelOf(finetune) && r.networkType == FinetuneTypeOf(finetune))
  {
    DatasetNameByEdges(edges, nodes, id);
    NetworkByEdges(edges, nodes, id);
  }

  lemma DatasetNameByEdges(edges: seq<Edge>, nodes: seq<Node>, id: string)
    ensures GetSourceData(edges, nodes, id).datasetName ==
              DatasetNameOf(FirstSource(edges, nodes, id, "dataset")).OrElse(
                AugmentedSourceNameOf(FirstSource(edges, nodes, id, "augmentation")))
  {
    FirstOfTypeIsFirstSource(edges, nodes, id, "dataset");
    FirstOfTypeIsFirstSource(edges, nodes, id, "augmentation");
    GetSourceDataUnfold(edges, nodes, id);
  }

  lemma NetworkByEdges(edges: seq<Edge>, nodes: seq<Node>, id: string)
    ensures var network := FirstSource(edges, nodes, id, "network");
            var finetune := FirstSource(edges, nodes, id, "finetune");
            && GetSourceData(edges, nodes, id).networkLabel == NetworkLabelOf(network).OrElse(FinetuneLabelOf(finetune))
            && GetSourceData(edges, nodes, id).networkType == NetworkTypeOf(network).OrElse(FinetuneTypeOf(finetune))
  {
    FirstOfTypeIsFirstSource(edges, nodes, id, "network");
    FirstOfTypeIsFirstSource(edges, nodes, id, "finetune");
    GetSourceDataUnfold(edges, nodes, id);
  }

  /** `getSourceData` in terms of the four lookups in the source list. */
  lemma GetSourceDataUnfold(edges: seq<Edge>, nodes: seq<Node>, id: string)
    ensures var sources := SourceNodes(edges, nodes, id);
            GetSourceData(edges, nodes, id) == SourceData(
              DatasetNameOf(FirstOfType(sources, "dataset")).OrElse(AugmentedSourceNameOf(FirstOfType(sources, "augmentation"))),
              NetworkLabelOf(FirstOfType(sources, "network")).OrElse(FinetuneLabelOf(FirstOfType(sources, "finetune"))),
              NetworkTypeOf(FirstOfType(sources, "network")).OrElse(FinetuneTypeOf(FirstOfType(sources, "finetune"))))
  {
  }

  /** With no edge into `id` there are no sources. */
  lemma {:induction false} NoEdgeNoSources(edges: seq<Edge>, nodes: seq<Node>, id: string)
    requires forall k :: 0 <= k < |edges| ==> edges[k].target != id
    ensures SourceNodes(edges, nodes, id) == []
  {
    if edges != [] {
      NoEdgeNoSources(edges[1..], nodes, id);
    }
  }

  /** A node no edge leads into finds nothing upstream. */
  lemma DisconnectedFindsNothing(edges: seq<Edge>, nodes: seq<Node>, id: string)
    requires forall k :: 0 <= k < |edges| ==> edges[k].target != id
    ensures GetSourceData(edges, nodes, id) == SourceData(None, None, None)
  {
    NoEdgeNoSources(edges, nodes, id);
  }

  /** An upstream dataset node with data wins over an augmentation, in
      whichever order their edges were drawn. */
  lemma DatasetBeatsAugmentation(ds: Node, aug: Node, id: string, first: bool)
    requires ds.id != aug.id
    requires ds.nodeType == "dataset" && ds.data.datasetData.Some?
    requires aug.nodeType == "augmentation"
    ensures var edges := if first then [Edge(ds.id, id), Edge(aug.id, id)] else [Edge(aug.id, id), Edge(ds.id, id)];
            GetSourceData(edges, [aug, ds], id).datasetName == Some(ds.data.datasetData.value.name)
  {
    var nodes := [aug, ds];
    var edges := if first then [Edge(ds.id, id), Edge(aug.id, id)] else [Edge(aug.id, id), Edge(ds.id, id)];
    assert NodeIndex(nodes, ds.id) == 1 by {
      assert nodes[1..] == [ds];
      assert NodeIndex(nodes[1..], ds.id) == 0;
    }
    assert FindNode(nodes, ds.id) == Some(ds);
    assert FindNode(nodes, aug.id) == Some(aug);
    assert edges[1..][1..] == [];
    var sources := SourceNodes(edges, nodes, id);
    assert SourceNodes(edges[1..][1..], nodes, id) == [];
    assert SourceNodes(edges[1..], nodes, id) == [FindNode(nodes, edges[1].source)];
    assert sources == [FindNode(nodes, edges[0].source), FindNode(nodes, edges[1].source)];
    if first {
      assert sources == [Some(ds), Some(aug)];
      assert FirstOfType(sources, "dataset") == Some(ds);
    } else {
      assert sources == [Some(aug), Some(ds)];
      assert sources[1..] == [Some(ds)];
      assert FirstOfType(sources[1..], "dataset") == Some(ds);
      assert FirstOfType(sources, "dataset") == Some(ds);
    }
  }

  /** Why a submission is not made. */
  datatype Missing = MissingDataset | MissingNetwork

  /** The three source values a submission carries. */
  datatype Ready = Ready(datasetName: string, networkLabel: string, networkType: string)

  /** The checks of `handleSubmit`: a missing or empty dataset name is
      reported first, then a missing or empty network label or type. */
  function PrepareSubmit(src: SourceData): (r: Result<Ready, Missing>)
    ensures r.Ok? <==> Truthy(src.datasetName) && Truthy(src.networkLabel) && Truthy(src.networkType)
    ensures r == Err(MissingDataset) <==> !Truthy(src.datasetName)
    ensures r.Ok? ==> r.value == Ready(src.datasetName.value, src.networkLabel.value, src.networkType.value)
  {
    if !Truthy(src.datasetName) then Err(MissingDataset)
    else if !Truthy(src.networkLabel) || !Truthy(src.networkType) then Err(MissingNetwork)
    else Ok(Ready(src.datasetName.value, src.networkLabel.value, src.networkType.value))
  }

  /** The record after the submission settles. A resolved submission with a
      non-empty job id makes the node busy with that job, an empty remote
      path and the finetune data; an empty job id changes nothing; a
      rejected submission makes the node fail with an empty job id and
      remote path. The stored job status is never touched. */
  function OnSubmitResult(d: NodeData, ready: Ready, form: FinetuneForm, res: SubmitResult): (u: NodeData)
    ensures u.jobStatus == d.jobStatus && u.workspacePath == d.workspacePath
    ensures res.SubmitResolved? && res.jobId == "" ==> u == d
    ensures res.SubmitResolved? && res.jobId != "" ==>
              && JobRecord.PollingEnabled(u)
              && u.jobId == Some(res.jobId)
              && u.finetuneData == Some(FinetuneData(ready.datasetName, ready.networkLabel, ready.networkType, form))
              && u == d.(status := u.status, remotePath := Some(""), jobId := u.jobId, finetuneData := u.finetuneData)
    ensures res.SubmitRejected? ==> u == d.(status := Some(Error), remotePath := Some(""), jobId := Some(""))
  {
    match res
    case SubmitResolved(jobId) =>
      if jobId == "" then d
      else
        d.(status := Some(Busy), remotePath := Some(""), jobId := Some(jobId),
           finetuneData := Some(FinetuneData(ready.datasetName, ready.networkLabel, ready.networkType, form)))
    case SubmitRejected => d.(status := Some(Error), remotePath := Some(""), jobId := Some(""))
  }

  /** The status-answer effect. It acts only on a busy node with an answer
      at hand; a COMPLETED answer is ignored while the node has no finetune
      data. Otherwise it is the shared status update. */
  function OnPoll(d: NodeData, answer: Option<PollResult>): (u: NodeData)
    ensures u != d ==> d.status == Some(Busy) && answer.Some?
    ensures d.status == Some(Busy) && answer.Some? && (answer.value.jobStatus != Some(COMPLETED) || d.finetuneData.Some?) ==>
              u == JobRecord.PollUpdate(d, answer.value)
    ensures d.finetuneData.None? && answer.Some? && answer.value.jobStatus == Some(COMPLETED) ==> u == d
  {
    if d.status != Some(Busy) then d
    else if answer.None? then d
    else
      var jobStatus := answer.value.jobStatus;
      if jobStatus == Some(COMPLETED) then
        if d.finetuneData.None? then d
        else d.(status := Some(Success), jobStatus := jobStatus)
      else if jobStatus == Some(FAILED) then d.(status := Some(Error), jobStatus := jobStatus)
      else d.(status := Some(Busy), jobStatus := jobStatus)
  }

  /** On the modelled fields, running the effect again with the same answer
      changes nothing more. The message and date it also writes are not
      modelled, and with them every run writes a new record. */
  lemma OnPollIdempotent(d: NodeData, answer: Option<PollResult>)
    ensures OnPoll(OnPoll(d, answer), answer) == OnPoll(d, answer)
  {
  }

  /** A node that was submitted through this handler always has finetune
      data, so a COMPLETED answer makes it successful. */
  lemma SubmittedJobCompletes(d: NodeData, ready: Ready, form: FinetuneForm, jobId: string)
    requires jobId != ""
    ensures var u := OnSubmitResult(d, ready, form, SubmitResolved(jobId));
            OnPoll(u, Some(PollResult(Some(COMPLETED)))).status == Some(Success)
  {
  }
}
