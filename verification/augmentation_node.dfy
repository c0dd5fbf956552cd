/** The augmentation node: what it reads from the dataset it augments, the
    name it suggests, and the updates of its record by a submission and a
    status answer; a cancellation is `JobRecord.CancelUpdate`. The store lookup that finds the
    upstream node's record is not part of this model; its answer is a
    parameter. */
module AugmentationNode {
  import opened Wrappers
  import opened Lifecycle
  import opened Forms
  import opened Graph
  import JobRecord
  import DatasetNode

  /** The upstream dataset's name and image paths. */
  datatype SourceDataset = SourceDataset(name: string, images: seq<string>)

  /** The image path of every pair, in order. */
  function ImagePaths(pairs: seq<DataPair>): (r: seq<string>)
    ensures |r| == |pairs|
    ensures forall k :: 0 <= k < |r| ==> r[k] == pairs[k].image
  {
    if pairs == [] then [] else [pairs[0].image] + ImagePaths(pairs[1..])
  }

  /** `getSourceDatasetData`: the upstream dataset's name and images when
      its record holds dataset data, or an empty name and no images. */
  function GetSourceDatasetData(source: Option<NodeData>): (r: SourceDataset)
    ensures source.Some? && source.value.datasetData.Some? ==>
              r.name == source.value.datasetData.value.name &&
              r.images == ImagePaths(source.value.datasetData.value.form.data)
    ensures source.None? || source.value.datasetData.None? ==> r == SourceDataset("", [])
  {
    if source.Some? && source.value.datasetData.Some? then
      var ds := source.value.datasetData.value;
      SourceDataset(ds.name, ImagePaths(ds.form.data))
    else SourceDataset("", [])
  }

  /** `getSuggestedName`. */
  function SuggestedName(source: Option<NodeData>): string
  {
    var name := GetSourceDatasetData(source).name;
    if name != "" then name + "_augmented" else "source_not_found"
  }

  /** The suggestion names the source dataset when there is one: removing the
      "_augmented" ending gives the source name back. */
  lemma SuggestedNameNamesSource(source: Option<NodeData>)
    ensures var name := GetSourceDatasetData(source).name;
            var s := SuggestedName(source);
            && (name == "" <==> s == "source_not_found")
            && (name != "" ==> |s| == |name| + 10 && s[..|name|] == name && s[|name|..] == "_augmented")
  {
  }

  /** `handleSubmit`'s check: no submission without a source dataset name. */
  function PrepareSubmit(source: Option<NodeData>): (r: Option<SourceDataset>)
    ensures r.Some? <==> GetSourceDatasetData(source).name != ""
    ensures r.Some? ==> r.value == GetSourceDatasetData(source)
  {
    var src := GetSourceDatasetData(source);
    if src.name == "" then None else Some(src)
  }

  /** The record after the submission settles. A resolved submission makes
      the node busy with the returned job id, whatever it is, and records
      the augmented dataset's remote path twice; a rejected submission
      leaves the record as it is. */
  function OnSubmitResult(d: NodeData, src: SourceDataset, form: AugmentationForm, res: SubmitResult): (u: NodeData)
    ensures res.SubmitRejected? ==> u == d
    ensures res.SubmitResolved? ==>
              && u.status == Some(Busy)
              && u.jobId == Some(res.jobId)
              && u.augmentationData.Some?
              && u.remotePath == Some(JobRecord.DatasetPath(d.workspacePath, form.augmentedDatasetName))
              && u.remotePath == Some(u.augmentationData.value.remotePath)
              && u.augmentationData.value.name == form.augmentedDatasetName
              && u.augmentationData.value.form == form
              && u.augmentationData.value.sourceDatasetName == src.name
              && u == d.(status := u.status, jobId := u.jobId, remotePath := u.remotePath,
                         augmentationData := u.augmentationData)
  {
    match res
    case SubmitResolved(jobId) =>
      var path := JobRecord.DatasetPath(d.workspacePath, form.augmentedDatasetName);
      d.(status := Some(Busy), remotePath := Some(path), jobId := Some(jobId),
         augmentationData := Some(AugmentationData(src.name, form, form.augmentedDatasetName, path)))
    case SubmitRejected => d
  }

  /** The augmented dataset is stored where a dataset node of the same name
      in the same workspace would store it, so its name can be read back
      from the remote path. */
  lemma AugmentedPathNamesDataset(d: NodeData, src: SourceDataset, form: AugmentationForm, jobId: string,
                                  dsForm: DatasetForm, dsJobId: string)
    requires '/' !in form.augmentedDatasetName
    requires dsForm.datasetName == form.augmentedDatasetName && dsJobId != ""
    ensures var u := OnSubmitResult(d, src, form, SubmitResolved(jobId));
            && u.remotePath == DatasetNode.OnSubmit(d, dsForm, SubmitResolved(dsJobId)).remotePath
            && DatasetNode.DefaultDatasetNameBySuffix(u.remotePath) == form.augmentedDatasetName
  {
    DatasetNode.LastPieceOfDatasetPath(d.workspacePath, form.augmentedDatasetName);
    var file := form.augmentedDatasetName + ".h5";
    assert file[|file| - 3..] == ".h5";
    assert file[..|file| - 3] == form.augmentedDatasetName;
  }

  /** Unlike the dataset and finetune nodes, an empty job id is accepted:
      the node becomes busy but never polls. */
  lemma EmptyJobIdNeverPolls(d: NodeData, src: SourceDataset, form: AugmentationForm)
    ensures var u := OnSubmitResult(d, src, form, SubmitResolved(""));
            u.status == Some(Busy) && !JobRecord.PollingEnabled(u)
  {
  }

  /** The status-answer effect: it acts only on a busy node with an answer
      at hand, and then it is the shared status update. */
  function OnPoll(d: NodeData, answer: Option<PollResult>): (u: NodeData)
    ensures d.status == Some(Busy) && answer.Some? ==> u == JobRecord.PollUpdate(d, answer.value)
    ensures d.status != Some(Busy) || answer.None? ==> u == d
  {
    if d.status != Some(Busy) || answer.None? then d
    else
      var jobStatus := answer.value.jobStatus;
      if jobStatus == Some(COMPLETED) then d.(status := Some(Success), jobStatus := jobStatus)
      else if jobStatus == Some(FAILED) then d.(status := Some(Error), jobStatus := jobStatus)
      else d.(status := Some(Busy), jobStatus := jobStatus)
  }

  /** On the modelled fields, running the effect again with the same answer
      changes nothing more. The message and date it also writes are not
      modelled, and with them every run writes a new record. */
  lemma OnPollIdempotent(d: NodeData, answer: Option<PollResult>)
    ensures OnPoll(OnPoll(d, answer), answer) == OnPoll(d, answer)
  {
  }
}
