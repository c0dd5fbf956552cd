/** The dataset node: the name its form starts from and the submission
    handler, as updates of the node record. Its status answers and its
    cancellation are `JobRecord.PollUpdate` and `JobRecord.CancelUpdate`
    unchanged. */
module DatasetNode {
  import opened Wrappers
  import opened Lifecycle
  import opened Strings
  import opened Forms
  import opened Graph
  import JobRecord

  /** The name the form starts from: the last `/` piece of the remote path
      with its first ".h5" removed, or "NewDataset" when there is no remote
      path. */
  function DefaultDatasetName(remotePath: Option<string>): (name: string)
    ensures remotePath.None? ==> name == "NewDataset"
    ensures remotePath.Some? ==> name == ReplaceFirst(LastPiece(remotePath.value, '/'), ".h5", "")
  {
    match remotePath
    case None => "NewDataset"
    case Some(p) => ReplaceFirst(LastPiece(p, '/'), ".h5", "")
  }

  /** `handleSubmitJob`: a resolved submission with a non-empty job id makes
      the node busy with that job and the dataset's remote path; an empty
      job id or a rejected submission leaves the record as it is. */
  function OnSubmit(d: NodeData, form: DatasetForm, res: SubmitResult): (u: NodeData)
    ensures res.SubmitRejected? || (res.SubmitResolved? && res.jobId == "") ==> u == d
    ensures res.SubmitResolved? && res.jobId != "" ==>
              u == d.(status := Some(Busy), jobId := Some(res.jobId),
                      remotePath := Some(JobRecord.DatasetPath(d.workspacePath, form.datasetName)))
  {
    match res
    case SubmitResolved(jobId) =>
      if jobId == "" then d
      else d.(status := Some(Busy),
              remotePath := Some(JobRecord.DatasetPath(d.workspacePath, form.datasetName)),
              jobId := Some(jobId))
    case SubmitRejected => d
  }

  /** A successful submission starts the polling for the new job. */
  lemma SubmitStartsPolling(d: NodeData, form: DatasetForm, jobId: string)
    requires jobId != ""
    ensures JobRecord.PollingEnabled(OnSubmit(d, form, SubmitResolved(jobId)))
    ensures !JobRecord.FormEditState(true, OnSubmit(d, form, SubmitResolved(jobId)).status)
  {
  }

  /** A name never holds ".h5" starting at any position. */
  predicate NoH5(name: string)
  {
    forall j :: 0 <= j < |name| ==> !OccursAt(name, ".h5", j)
  }

  /** The first ".h5" of `name + ".h5"` is the appended one when the name
      holds none. */
  lemma FirstH5IsSuffix(name: string)
    requires NoH5(name)
    ensures IndexOf(name + ".h5", ".h5") == |name|
  {
    var s := name + ".h5";
    assert s[|name|..|name| + 3] == ".h5";
    assert OccursAt(s, ".h5", |name|);
    forall j | 0 <= j < |name|
      ensures !OccursAt(s, ".h5", j)
    {
      if j + 3 <= |name| {
        assert s[j..j + 3] == name[j..j + 3];
        assert !OccursAt(name, ".h5", j);
      } else if j == |name| - 1 {
        assert s[j..j + 3][1] == s[j + 1] == '.' != ".h5"[1];
      } else {
        assert s[j..j + 3][2] == s[j + 2] == '.' != ".h5"[2];
      }
    }
  }

  /** The remote path of a dataset ends in its file name. */
  lemma LastPieceOfDatasetPath(workspacePath: Option<string>, name: string)
    requires '/' !in name
    ensures LastPiece(JobRecord.DatasetPath(workspacePath, name), '/') == name + ".h5"
  {
    var a := Render(workspacePath) + "/datasets";
    var b := name + ".h5";
    assert JobRecord.DatasetPath(workspacePath, name) == a + ['/'] + b;
    assert '/' !in b by {
      assert forall i :: 0 <= i < |b| ==> b[i] == (if i < |name| then name[i] else ".h5"[i - |name|]);
    }
    LastPieceAfterSeparator(a, '/', b);
  }

  /** A dataset submitted under a name with no `/` and no ".h5" in it gets
      that name back as the form's default once the node is reloaded. */
  lemma DefaultNameRoundTrip(d: NodeData, form: DatasetForm, jobId: string)
    requires jobId != ""
    requires '/' !in form.datasetName && NoH5(form.datasetName)
    ensures DefaultDatasetName(OnSubmit(d, form, SubmitResolved(jobId)).remotePath) == form.datasetName
  {
    var name := form.datasetName;
    LastPieceOfDatasetPath(d.workspacePath, name);
    FirstH5IsSuffix(name);
    assert (name + ".h5")[..|name|] == name;
    assert (name + ".h5")[|name| + 3..] == [];
  }

  /** As written, a name that holds ".h5" before its end does not survive:
      "a.h5b" is stored under ".../datasets/a.h5b.h5" and comes back as
      "ab.h5". */
  lemma DefaultNameLosesInnerH5()
    ensures DefaultDatasetName(Some(JobRecord.DatasetPath(Some("/ws"), "a.h5b"))) == "ab.h5"
  {
    var name := "a.h5b";
    LastPieceOfDatasetPath(Some("/ws"), name);
    var s := name + ".h5";
    assert OccursAt(s, ".h5", 1) by { assert s[1..4] == ".h5"; }
    assert !OccursAt(s, ".h5", 0) by { assert s[0] == 'a'; }
    assert IndexOf(s, ".h5") == 1;
    assert s[..1] + "" + s[4..] == "ab.h5";
  }

  /** The default name with the ".h5" extension removed from the end of the
      file name only. */
  function DefaultDatasetNameBySuffix(remotePath: Option<string>): (name: string)
    ensures remotePath.None? ==> name == "NewDataset"
    ensures remotePath.Some? ==>
              var file := LastPiece(remotePath.value, '/');
              if EndsWith(file, ".h5") then name + ".h5" == file else name == file
  {
    match remotePath
    case None => "NewDataset"
    case Some(p) =>
      var file := LastPiece(p, '/');
      if EndsWith(file, ".h5") then
        assert file == file[..|file| - 3] + ".h5";
        file[..|file| - 3]
      else file
  }

  /** Removing the extension from the end gives every `/`-free name back. */
  lemma DefaultNameBySuffixRoundTrip(d: NodeData, form: DatasetForm, jobId: string)
    requires jobId != ""
    requires '/' !in form.datasetName
    ensures DefaultDatasetNameBySuffix(OnSubmit(d, form, SubmitResolved(jobId)).remotePath) == form.datasetName
  {
    var name := form.datasetName;
    LastPieceOfDatasetPath(d.workspacePath, name);
    var file := name + ".h5";
    assert file[|file| - 3..] == ".h5";
    assert file[..|file| - 3] == name;
  }

  /** On names without an inner ".h5" the two readings agree. */
  lemma DefaultNamesAgree(workspacePath: Option<string>, name: string)
    requires '/' !in name && NoH5(name)
    ensures DefaultDatasetName(Some(JobRecord.DatasetPath(workspacePath, name))) ==
              DefaultDatasetNameBySuffix(Some(JobRecord.DatasetPath(workspacePath, name)))
  {
    LastPieceOfDatasetPath(workspacePath, name);
    FirstH5IsSuffix(name);
    var file := name + ".h5";
    assert file[..|name|] == name && file[|name| + 3..] == [];
    assert file[|file| - 3..] == ".h5";
    assert file[..|file| - 3] == name;
  }
}
