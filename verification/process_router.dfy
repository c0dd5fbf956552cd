/** The submission routes of the remote process router, without the SSH
    connection: the command line each route builds, the batch script that
    wraps it, the input checks, and the rule that turns the scheduler's
    output into a job id or an error. The two container settings read from
    the environment are parameters, and so is the rendering of the network
    form's two numeric fields. */
module ProcessRouter {
  import opened Wrappers
  import opened Strings
  import Forms
  import NetworkForm

  /** The container image and its storage bind, read from the environment. */
  datatype Env = Env(storageBind: string, containerPath: string)

  /** The container launcher; the network route leaves out `--no-home`. */
  function ContainerScript(env: Env, noHome: bool): string
  {
    "singularity run --nv " + (if noHome then "--no-home " else "") + "--bind " + env.storageBind + " " + env.containerPath
  }

  // ---------------------------------------------------------------------------
  // The batch script
  // ---------------------------------------------------------------------------

  /** The `#SBATCH` settings of a route. Every route asks for one task; only
      the network and inference routes ask for GPUs. */
  datatype Header = Header(jobName: string, partition: string, gpus: Option<string>)

  /** The lines of the batch script: the shebang, the settings in a fixed
      order, and the command last. */
  function SbatchLines(h: Header, command: string): (lines: seq<string>)
    ensures |lines| == (if h.gpus.Some? then 8 else 7)
    ensures lines[0] == "#!/bin/bash" && lines[|lines| - 1] == command
    ensures lines[1] == "#SBATCH --job-name=" + h.jobName
    ensures lines[2] == "#SBATCH --output=" + h.jobName + "-output.txt"
    ensures lines[3] == "#SBATCH --error=" + h.jobName + "-error.txt"
    ensures lines[4] == "#SBATCH --ntasks=1"
    ensures lines[5] == "#SBATCH --partition=" + h.partition
    ensures h.gpus.Some? ==> lines[6] == "#SBATCH --gres=gpu:" + h.gpus.value
    ensures h.gpus.None? ==> lines[6] == command
  {
    [ "#!/bin/bash",
      "#SBATCH --job-name=" + h.jobName,
      "#SBATCH --output=" + h.jobName + "-output.txt",
      "#SBATCH --error=" + h.jobName + "-error.txt",
      "#SBATCH --ntasks=1",
      "#SBATCH --partition=" + h.partition ]
    + (if h.gpus.Some? then ["#SBATCH --gres=gpu:" + h.gpus.value] else [])
    + [command]
  }

  /** The batch script's text: its lines joined with newlines. */
  function SbatchContent(h: Header, command: string): string
  {
    Join(SbatchLines(h, command), "\n")
  }

  /** None of the values put into a script holds a line break. */
  predicate OneLine(s: string)
  {
    '\n' !in s
  }

  predicate HeaderOneLine(h: Header)
  {
    OneLine(h.jobName) && OneLine(h.partition) && (h.gpus.Some? ==> OneLine(h.gpus.value))
  }

  /** A `c`-free text stays `c`-free behind a `c`-free prefix. */
  lemma NotInConcat(a: string, b: string, c: char)
    requires c !in a && c !in b
    ensures c !in a + b
  {
    assert forall k :: 0 <= k < |a + b| ==> (a + b)[k] == (if k < |a| then a[k] else b[k - |a|]);
  }

  /** Reading the script back line by line gives its lines, so the command
      is the script's last line and the GPU line is present exactly when GPUs
      are asked for. */
  lemma SbatchReadsBack(h: Header, command: string)
    requires HeaderOneLine(h) && OneLine(command)
    ensures Split(SbatchContent(h, command), '\n') == SbatchLines(h, command)
  {
    var lines := SbatchLines(h, command);
    NotInConcat("#SBATCH --job-name=", h.jobName, '\n');
    NotInConcat("#SBATCH --output=", h.jobName, '\n');
    NotInConcat("#SBATCH --output=" + h.jobName, "-output.txt", '\n');
    NotInConcat("#SBATCH --error=", h.jobName, '\n');
    NotInConcat("#SBATCH --error=" + h.jobName, "-error.txt", '\n');
    NotInConcat("#SBATCH --partition=", h.partition, '\n');
    if h.gpus.Some? {
      NotInConcat("#SBATCH --gres=gpu:", h.gpus.value, '\n');
    }
    assert forall i :: 0 <= i < |lines| ==> '\n' !in lines[i];
    SplitJoin(lines, '\n');
  }

  // ---------------------------------------------------------------------------
  // The scheduler's answer
  // ---------------------------------------------------------------------------

  /** After `sbatch --parsable`: any error output fails the route with that
      output as the message; otherwise the job id is the trimmed standard
      output. */
  function SubmissionOutcome(stdout: string, stderr: string): (r: Result<string, string>)
    ensures r.Err? <==> stderr != ""
    ensures r.Err? ==> r.error == stderr
    ensures r.Ok? ==> Trimmed(r.value) && |r.value| <= |stdout|
  {
    if stderr != "" then Err(stderr) else Ok(Trim(stdout))
  }

  /** A job id printed with surrounding white space (the scheduler's
      trailing newline, say) is returned as printed. */
  lemma JobIdRoundTrip(pre: string, id: string, post: string)
    requires AllSpace(pre) && AllSpace(post) && Trimmed(id)
    ensures SubmissionOutcome(pre + id + post, "") == Ok(id)
  {
    TrimPadded(pre, id, post);
  }

  // ---------------------------------------------------------------------------
  // Flag lists and repeated values
  // ---------------------------------------------------------------------------

  /** The flag before each value, as one option per value. */
  function FlagEach(flag: string, values: seq<string>): (r: seq<string>)
    ensures |r| == |values|
    ensures forall k :: 0 <= k < |r| ==> r[k] == flag + " " + values[k]
  {
    if values == [] then [] else [flag + " " + values[0]] + FlagEach(flag, values[1..])
  }

  /** The words of a flag list: the flag before every value. */
  function Interleave(flag: string, values: seq<string>): (r: seq<string>)
    ensures |r| == 2 * |values|
    ensures forall k :: 0 <= k < |values| ==> r[2 * k] == flag && r[2 * k + 1] == values[k]
  {
    if values == [] then []
    else
      var rest := Interleave(flag, values[1..]);
      var r := [flag, values[0]] + rest;
      assert forall k :: 0 <= k < |values| ==> r[2 * k] == flag && r[2 * k + 1] == values[k] by {
        forall k | 1 <= k < |values|
          ensures r[2 * k] == flag && r[2 * k + 1] == values[k]
        {
          assert r[2 * k] == rest[2 * (k - 1)];
          assert r[2 * k + 1] == rest[2 * (k - 1) + 1];
          assert values[1..][k - 1] == values[k];
        }
      }
      r
  }

  lemma {:induction false} FlagEachJoin(flag: string, values: seq<string>)
    requires |values| >= 1
    ensures Join(FlagEach(flag, values), " ") == Join(Interleave(flag, values), " ")
    decreases |values|
  {
    var head := flag + " " + values[0];
    if |values| == 1 {
      assert FlagEach(flag, values) == [head];
      assert Interleave(flag, values) == [flag, values[0]];
    } else {
      var rest := FlagEach(flag, values[1..]);
      var words := Interleave(flag, values[1..]);
      FlagEachJoin(flag, values[1..]);
      assert FlagEach(flag, values) == [head] + rest;
      assert Interleave(flag, values) == [flag, values[0]] + words;
      JoinAppend([flag, values[0]], words, " ");
    }
  }

  /** A flag list splits at its spaces into the flag before each value, in
      the order of the values, when neither flag nor values hold a space. */
  lemma FlagListWords(flag: string, values: seq<string>)
    requires |values| >= 1 && ' ' !in flag
    requires forall k :: 0 <= k < |values| ==> ' ' !in values[k]
    ensures Split(Join(FlagEach(flag, values), " "), ' ') == Interleave(flag, values)
  {
    FlagEachJoin(flag, values);
    var words := Interleave(flag, values);
    forall i | 0 <= i < |words|
      ensures ' ' !in words[i]
    {
      if i % 2 == 0 {
        assert words[2 * (i / 2)] == flag;
      } else {
        assert words[2 * (i / 2) + 1] == values[i / 2];
      }
    }
    SplitJoin(words, ' ');
  }

  /** `(v + ' ').repeat(3)`: the value three times, each followed by a space. */
  function Triple(v: string): string
  {
    Repeat(v + " ", 3)
  }

  /** Each copy of the value is followed by its space. */
  lemma TripleUnfold(v: string)
    ensures Triple(v) == v + " " + v + " " + v + " "
  {
    var w := v + " ";
    assert Repeat(w, 1) == w + Repeat(w, 0);
    assert Repeat(w, 2) == w + Repeat(w, 1);
    assert Repeat(w, 3) == w + Repeat(w, 2);
  }

  /** Three parts joined: the separator between each neighbouring pair. */
  lemma Join3(a: string, b: string, c: string, sep: string)
    ensures Join([a, b, c], sep) == a + sep + b + sep + c
  {
    assert [b, c][1..] == [c];
    assert Join([b, c], sep) == b + sep + c;
    assert [a, b, c][1..] == [b, c];
  }

  lemma TripleAsJoin(v: string)
    ensures Triple(v) == Join([v, v, v, ""], " ")
  {
    TripleUnfold(v);
    assert [v, v, v, ""][1..] == [v, v, ""];
    Join3(v, v, "", " ");
  }

  /** The command line sees three copies of the value, then an empty word
      where the trailing space ends. */
  lemma TripleWords(v: string)
    requires ' ' !in v
    ensures Triple(v) == Join([v, v, v, ""], " ")
    ensures Split(Triple(v), ' ') == [v, v, v, ""]
  {
    TripleAsJoin(v);
    var words := [v, v, v, ""];
    assert forall i :: 0 <= i < |words| ==> ' ' !in words[i];
    SplitJoin(words, ' ');
  }

  // ---------------------------------------------------------------------------
  // submitNewWorkspace
  // ---------------------------------------------------------------------------

  const WorkspaceJobName := "deepsirius-workspace"
  /** The workspace job's partition is fixed rather than chosen by the user. */
  const WorkspacePartition := "proc2"

  function WorkspaceCommand(env: Env, workspacePath: string): string
  {
    ContainerScript(env, true) + " ssc-deepsirius create_workspace " + workspacePath
  }

  function WorkspaceSbatch(env: Env, workspacePath: string): string
  {
    SbatchContent(Header(WorkspaceJobName, WorkspacePartition, None), WorkspaceCommand(env, workspacePath))
  }

  /** The workspace script, read line by line: the fixed job name and
      "proc2" partition, no GPU request, and the workspace command last. */
  lemma WorkspaceScriptShape(env: Env, workspacePath: string)
    requires OneLine(WorkspaceCommand(env, workspacePath))
    ensures var lines := Split(WorkspaceSbatch(env, workspacePath), '\n');
            && |lines| == 7
            && lines[1] == "#SBATCH --job-name=" + WorkspaceJobName
            && lines[5] == "#SBATCH --partition=" + WorkspacePartition
            && lines[6] == WorkspaceCommand(env, workspacePath)
  {
    var h := Header(WorkspaceJobName, WorkspacePartition, None);
    assert HeaderOneLine(h);
    SbatchReadsBack(h, WorkspaceCommand(env, workspacePath));
  }

  // ---------------------------------------------------------------------------
  // submitDataset
  // ---------------------------------------------------------------------------

  function ImagePaths(data: seq<Forms.DataPair>): (r: seq<string>)
    ensures |r| == |data| && forall k :: 0 <= k < |r| ==> r[k] == data[k].image
  {
    if data == [] then [] else [data[0].image] + ImagePaths(data[1..])
  }

  function LabelPaths(data: seq<Forms.DataPair>): (r: seq<string>)
    ensures |r| == |data| && forall k :: 0 <= k < |r| ==> r[k] == data[k].labelPath
  {
    if data == [] then [] else [data[0].labelPath] + LabelPaths(data[1..])
  }

  /** The sampling options: class count, sample count, and the patch size
      three times. */
  function SamplingKwargs(form: Forms.DatasetForm): string
  {
    Join(["--n-classes " + form.classes, "--n-samples " + form.sampleSize, "--sampling-size " + Triple(form.patchSize)], " ")
  }

  /** `create_dataset` with the workspace and dataset name, the sampling
      options, one `--input-imgs` per pair and then one `--input-labels` per
      pair. */
  function DatasetCli(workspacePath: string, form: Forms.DatasetForm): string
  {
    "ssc-deepsirius create_dataset " + workspacePath + " " + form.datasetName + " " + SamplingKwargs(form) + " "
      + Join(FlagEach("--input-imgs", ImagePaths(form.data)), " ") + " "
      + Join(FlagEach("--input-labels", LabelPaths(form.data)), " ")
  }

  /** The augmentation branch is switched off, so the command is the
      container launcher followed by the dataset command line. */
  function DatasetCommand(env: Env, workspacePath: string, form: Forms.DatasetForm): string
  {
    ContainerScript(env, true) + " " + DatasetCli(workspacePath, form)
  }

  /** The dataset job runs on the form's partition without GPUs. */
  function DatasetSbatch(env: Env, workspacePath: string, form: Forms.DatasetForm): string
  {
    SbatchContent(Header("deepsirius-dataset", form.slurmOptions.partition, None), DatasetCommand(env, workspacePath, form))
  }

  /** The dataset script, read line by line: seven lines, the form's
      partition, no GPU request, and the container command last. */
  lemma DatasetScriptShape(env: Env, workspacePath: string, form: Forms.DatasetForm)
    requires OneLine(form.slurmOptions.partition) && OneLine(DatasetCommand(env, workspacePath, form))
    ensures var lines := Split(DatasetSbatch(env, workspacePath, form), '\n');
            && |lines| == 7
            && lines[5] == "#SBATCH --partition=" + form.slurmOptions.partition
            && lines[6] == ContainerScript(env, true) + " " + DatasetCli(workspacePath, form)
  {
    SbatchReadsBack(Header("deepsirius-dataset", form.slurmOptions.partition, None), DatasetCommand(env, workspacePath, form));
  }

  /** The image and label options name every pair, in the pairs' order. */
  lemma DatasetInputWords(form: Forms.DatasetForm)
    requires |form.data| >= 1
    requires forall k :: 0 <= k < |form.data| ==> ' ' !in form.data[k].image && ' ' !in form.data[k].labelPath
    ensures Split(Join(FlagEach("--input-imgs", ImagePaths(form.data)), " "), ' ') == Interleave("--input-imgs", ImagePaths(form.data))
    ensures Split(Join(FlagEach("--input-labels", LabelPaths(form.data)), " "), ' ') == Interleave("--input-labels", LabelPaths(form.data))
  {
    var imgs := ImagePaths(form.data);
    var labels := LabelPaths(form.data);
    assert forall k :: 0 <= k < |imgs| ==> ' ' !in imgs[k];
    assert forall k :: 0 <= k < |labels| ==> ' ' !in labels[k];
    FlagListWords("--input-imgs", imgs);
    FlagListWords("--input-labels", labels);
  }

  // ---------------------------------------------------------------------------
  // submitNetwork
  // ---------------------------------------------------------------------------

  datatype TrainingType = Create | Retry | Finetune

  datatype NetworkInput = NetworkInput(
    workspacePath: string,
    datasetPath: string,
    trainingType: TrainingType,
    form: NetworkForm.Form)

  /** Why a route rejects its input before building anything. */
  datatype InputError = EmptyDatasetPath | InvalidNetworkForm(issues: seq<NetworkForm.Issue>) | EmptyNetworkName

  /** The training options; a finetuning run adds `--use-finetune` at the
      end. `render` is the number-to-text conversion of the two numeric
      fields. */
  function NetworkKwargs(form: NetworkForm.Form, trainingType: TrainingType, render: real -> string): string
  {
    Join([ "--max-iter " + render(form.iterations),
           "--learning-rate " + render(form.learningRate),
           "--optimiser " + form.optimizer,
           "--drop-classifier " + (if form.dropClassifier then "true" else "false"),
           "--net-patch-size " + Triple(form.patchSize) ], " ")
    + (if trainingType == Finetune then " --use-finetune" else "")
  }

  /** The last of the joined parts ends the joined text. */
  lemma {:induction false} JoinEndsWithLast(parts: seq<string>, sep: string)
    requires |parts| >= 1
    ensures EndsWith(Join(parts, sep), parts[|parts| - 1])
    decreases |parts|
  {
    if |parts| > 1 {
      JoinEndsWithLast(parts[1..], sep);
      var rest := Join(parts[1..], sep);
      assert Join(parts, sep) == (parts[0] + sep) + rest;
    }
  }

  /** The options end with `--use-finetune` exactly for a finetuning run;
      otherwise they end with the patch size's trailing space. */
  lemma UseFinetuneIffFinetune(form: NetworkForm.Form, trainingType: TrainingType, render: real -> string)
    ensures EndsWith(NetworkKwargs(form, trainingType, render), " --use-finetune") <==> trainingType == Finetune
  {
    var parts := [ "--max-iter " + render(form.iterations),
                   "--learning-rate " + render(form.learningRate),
                   "--optimiser " + form.optimizer,
                   "--drop-classifier " + (if form.dropClassifier then "true" else "false"),
                   "--net-patch-size " + Triple(form.patchSize) ];
    var j := Join(parts, " ");
    var kw := NetworkKwargs(form, trainingType, render);
    if trainingType != Finetune {
      JoinEndsWithLast(parts, " ");
      TripleUnfold(form.patchSize);
      var last := parts[4];
      assert last[|last| - 1] == ' ';
      assert kw == j;
      assert kw[|kw| - 1] == ' ';
    } else {
      assert kw == j + " --use-finetune";
      assert kw[|kw| - |" --use-finetune"|..] == " --use-finetune";
    }
  }

  /** `train_model` with the options first and then the workspace, network
      type, network label and dataset path. */
  function TrainingScript(input: NetworkInput, render: real -> string): string
  {
    "ssc-deepsirius train_model " + NetworkKwargs(input.form, input.trainingType, render) + " "
      + input.workspacePath + " " + input.form.networkTypeName + " " + input.form.networkUserLabel + " " + input.datasetPath
  }

  /** `submitNetwork`: an empty dataset path or a form the network schema
      rejects is refused; otherwise the script runs the training in the
      container (without `--no-home`) on the form's partition with the form's
      GPU count. */
  function NetworkSbatch(input: NetworkInput, env: Env, partitions: seq<string>, gpuOptions: seq<string>, render: real -> string): (r: Result<string, InputError>)
    ensures r.Ok? <==> input.datasetPath != "" && NetworkForm.Valid(input.form, partitions, gpuOptions)
    ensures r == Err(EmptyDatasetPath) <==> input.datasetPath == ""
    ensures r.Ok? ==> input.form.slurmOptions.partition.Some? && input.form.slurmOptions.nGPU.Some?
    ensures r.Ok? ==> r.value == SbatchContent(
              Header("deepsirius-network", input.form.slurmOptions.partition.value, Some(input.form.slurmOptions.nGPU.value)),
              ContainerScript(env, false) + " " + TrainingScript(input, render))
  {
    if input.datasetPath == "" then Err(EmptyDatasetPath)
    else if !NetworkForm.Valid(input.form, partitions, gpuOptions) then
      Err(InvalidNetworkForm(NetworkForm.Issues(input.form, partitions, gpuOptions)))
    else
      NetworkForm.ValidIffRules(input.form, partitions, gpuOptions);
      var slurm := input.form.slurmOptions;
      Ok(SbatchContent(Header("deepsirius-network", slurm.partition.value, Some(slurm.nGPU.value)),
                       ContainerScript(env, false) + " " + TrainingScript(input, render)))
  }

  // ---------------------------------------------------------------------------
  // submitInference
  // ---------------------------------------------------------------------------

  datatype InferenceInput = InferenceInput(workspacePath: string, networkName: string, form: Forms.InferenceForm)

  function ImageFilePaths(images: seq<Forms.Image>): (r: seq<string>)
    ensures |r| == |images| && forall k :: 0 <= k < |r| ==> r[k] == images[k].path
  {
    if images == [] then [] else [images[0].path] + ImageFilePaths(images[1..])
  }

  /** The output option: the probability map or the label image. */
  function OutNetOp(saveProbMap: bool): string
  {
    if saveProbMap then "save_prob_map" else "save_label"
  }

  /** The inference options: padding and border three times each, the
      output option, and the normalisation switch at the end. */
  function InferenceKwargs(form: Forms.InferenceForm): string
  {
    Join(["--padding " + Triple(form.paddingSize), "--border " + Triple(form.patchSize), "--out-net-op " + OutNetOp(form.saveProbMap)], " ")
      + (if form.normalize then " --norm-data" else " --no-norm-data")
  }

  /** The inference options, split at their spaces: padding and border each
      take three words and an empty one (their trailing space), then the
      output option and the normalisation switch. */
  lemma InferenceKwargWords(form: Forms.InferenceForm)
    requires ' ' !in form.paddingSize && ' ' !in form.patchSize
    ensures Split(InferenceKwargs(form), ' ') ==
              ["--padding", form.paddingSize, form.paddingSize, form.paddingSize, "",
               "--border", form.patchSize, form.patchSize, form.patchSize, "",
               "--out-net-op", OutNetOp(form.saveProbMap),
               if form.normalize then "--norm-data" else "--no-norm-data"]
  {
    var p := form.paddingSize;
    var b := form.patchSize;
    var words := ["--padding", p, p, p, "", "--border", b, b, b, "", "--out-net-op", OutNetOp(form.saveProbMap),
                  if form.normalize then "--norm-data" else "--no-norm-data"];
    InferenceKwargsAsJoin(form);
    assert forall i :: 0 <= i < |words| ==> ' ' !in words[i];
    SplitJoin(words, ' ');
  }

  /** An option followed by its value three times, as words. */
  lemma TripleOptionWords(flag: string, v: string)
    requires ' ' !in v
    ensures flag + " " + Triple(v) == Join([flag, v, v, v, ""], " ")
  {
    TripleAsJoin(v);
    JoinAppend([flag], [v, v, v, ""], " ");
    assert [flag] + [v, v, v, ""] == [flag, v, v, v, ""];
  }

  /** The inference options are their words joined with spaces. */
  lemma InferenceKwargsAsJoin(form: Forms.InferenceForm)
    requires ' ' !in form.paddingSize && ' ' !in form.patchSize
    ensures InferenceKwargs(form) ==
              Join(["--padding", form.paddingSize, form.paddingSize, form.paddingSize, "",
                    "--border", form.patchSize, form.patchSize, form.patchSize, "",
                    "--out-net-op", OutNetOp(form.saveProbMap),
                    if form.normalize then "--norm-data" else "--no-norm-data"], " ")
  {
    var p := form.paddingSize;
    var b := form.patchSize;
    var pad := ["--padding", p, p, p, ""];
    var border := ["--border", b, b, b, ""];
    var out := ["--out-net-op", OutNetOp(form.saveProbMap)];
    var norm := [if form.normalize then "--norm-data" else "--no-norm-data"];
    var x := Join(pad, " ");
    var y := Join(border, " ");
    var z := Join(out, " ");
    TripleOptionWords("--padding", p);
    TripleOptionWords("--border", b);
    assert z == "--out-net-op " + OutNetOp(form.saveProbMap) by {
      assert out[1..] == [OutNetOp(form.saveProbMap)];
      assert Join([OutNetOp(form.saveProbMap)], " ") == OutNetOp(form.saveProbMap);
    }
    assert x == "--padding " + Triple(p) by { assert "--padding" + " " == "--padding "; }
    assert y == "--border " + Triple(b) by { assert "--border" + " " == "--border "; }
    assert " --norm-data" == " " + "--norm-data" && " --no-norm-data" == " " + "--no-norm-data";
    Join3(x, y, z, " ");
    JoinAppend(pad, border, " ");
    JoinAppend(pad + border, out, " ");
    JoinAppend(pad + border + out, norm, " ");
    assert Join(norm, " ") == norm[0];
    assert pad + border + out + norm == ["--padding", p, p, p, "", "--border", b, b, b, "", "--out-net-op", OutNetOp(form.saveProbMap), norm[0]];
  }

  /** `run_inference` in the container with the workspace, network name and
      output directory, the options, and one `--list-imgs-infer` per image. */
  function InferenceCommand(env: Env, input: InferenceInput): string
  {
    ContainerScript(env, true) + " ssc-deepsirius run_inference "
      + input.workspacePath + " " + input.networkName + " " + input.form.outputDir + " "
      + InferenceKwargs(input.form) + " "
      + Join(FlagEach("--list-imgs-infer", ImageFilePaths(input.form.inputImages)), " ")
  }

  /** `submitInference`: an empty network name is refused; otherwise the
      script runs the inference on the form's partition with its GPU count.
      The inference form's own schema is not part of this model. */
  function InferenceSbatch(env: Env, input: InferenceInput): (r: Result<string, InputError>)
    ensures r.Err? <==> input.networkName == ""
    ensures r.Ok? ==> r.value == SbatchContent(
              Header("deepsirius-inference", input.form.slurmOptions.partition, Some(input.form.slurmOptions.nGPU)),
              InferenceCommand(env, input))
  {
    if input.networkName == "" then Err(EmptyNetworkName)
    else
      Ok(SbatchContent(Header("deepsirius-inference", input.form.slurmOptions.partition, Some(input.form.slurmOptions.nGPU)),
                       InferenceCommand(env, input)))
  }

  /** The inference script asks for the form's GPUs on its own line, and
      ends with the inference command. */
  lemma InferenceScriptShape(env: Env, input: InferenceInput)
    requires input.networkName != ""
    requires OneLine(input.form.slurmOptions.partition) && OneLine(input.form.slurmOptions.nGPU)
    requires OneLine(InferenceCommand(env, input))
    ensures var lines := Split(InferenceSbatch(env, input).value, '\n');
            && |lines| == 8
            && lines[5] == "#SBATCH --partition=" + input.form.slurmOptions.partition
            && lines[6] == "#SBATCH --gres=gpu:" + input.form.slurmOptions.nGPU
            && lines[7] == InferenceCommand(env, input)
  {
    SbatchReadsBack(Header("deepsirius-inference", input.form.slurmOptions.partition, Some(input.form.slurmOptions.nGPU)),
                    InferenceCommand(env, input));
  }
}
