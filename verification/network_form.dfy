/** The network training form: its validation schema (`networkSchema`) as a
    list of issues in schema order, and the default values the form starts
    from (`useNetworkForm`). The slurm partition and GPU option lists are
    defined in a constants file that is not part of this model; they are
    parameters here. `iterations` and `learningRate` are numbers after
    coercion, taken as reals. */
module NetworkForm {
  import opened Wrappers

  datatype SlurmOptions = SlurmOptions(partition: Option<string>, nGPU: Option<string>)

  datatype Form = Form(
    slurmOptions: SlurmOptions,
    networkUserLabel: string,
    dropClassifier: bool,
    jobGPUs: string,
    iterations: real,
    learningRate: real,
    optimizer: string,
    lossFunction: string,
    networkTypeName: string,
    patchSize: string)

  const PatchSizes: seq<string> := ["16", "32", "64", "128", "256", "512", "1024"]
  const JobGpuOptions: seq<string> := ["1", "2", "4"]
  const Optimizers: seq<string> := ["adam", "adagrad", "gradientdescent"]
  const LossFunctions: seq<string> := ["CrossEntropy", "dice", "xent_dice"]
  const NetworkTypes: seq<string> := ["unet2d", "unet3d", "vnet"]

  /** One failed rule of the schema. */
  datatype Issue =
    | PartitionInvalid
    | GpuOptionInvalid
    | LabelTooShort
    | LabelBadChars
    | JobGpusInvalid
    | IterationsTooSmall
    | LearningRateNotPositive
    | OptimizerInvalid
    | LossFunctionInvalid
    | NetworkTypeInvalid
    | PatchSizeInvalid

  /** A character the label pattern `^[a-zA-Z0-9_]*$` admits. */
  predicate IsLabelChar(c: char)
  {
    ('a' <= c <= 'z') || ('A' <= c <= 'Z') || ('0' <= c <= '9') || c == '_'
  }

  /** The length JavaScript gives a string: its count of UTF-16 code units,
      where a character beyond the Basic Multilingual Plane takes two. */
  function Utf16Length(s: string): (n: nat)
    ensures |s| <= n <= 2 * |s|
    ensures n == |s| <==> forall k :: 0 <= k < |s| ==> s[k] < '\U{10000}'
  {
    if s == [] then 0
    else (if s[0] < '\U{10000}' then 1 else 2) + Utf16Length(s[1..])
  }

  /** A label made of pattern characters is as long in UTF-16 code units as
      in characters, so the length rule and the pattern only disagree about
      labels the pattern rejects anyway. */
  lemma LabelCharsCountOnce(name: string)
    requires forall k :: 0 <= k < |name| ==> IsLabelChar(name[k])
    ensures Utf16Length(name) == |name|
  {
  }

  /** A label of one character beyond the Basic Multilingual Plane is two
      code units long: it meets the length rule and fails only the pattern. */
  lemma AstralLabelFailsOnlyPattern(f: Form, partitions: seq<string>, gpuOptions: seq<string>)
    requires f.networkUserLabel == "\U{1F600}"
    ensures !Fails(f, partitions, gpuOptions, LabelTooShort)
    ensures Fails(f, partitions, gpuOptions, LabelBadChars)
  {
  }

  /** `o` is present and one of `options` (a `z.enum`). */
  predicate InEnum(o: Option<string>, options: seq<string>)
  {
    o.Some? && o.value in options
  }

  /** The schema's rules, one per issue, in the order of its fields. */
  const SchemaOrder: seq<Issue> := [
    PartitionInvalid, GpuOptionInvalid, LabelTooShort, LabelBadChars,
    JobGpusInvalid, IterationsTooSmall, LearningRateNotPositive,
    OptimizerInvalid, LossFunctionInvalid, NetworkTypeInvalid, PatchSizeInvalid]

  /** `f` breaks the rule behind `issue`. */
  predicate Fails(f: Form, partitions: seq<string>, gpuOptions: seq<string>, issue: Issue)
  {
    var name := f.networkUserLabel;
    match issue
    case PartitionInvalid => !InEnum(f.slurmOptions.partition, partitions)
    case GpuOptionInvalid => !InEnum(f.slurmOptions.nGPU, gpuOptions)
    case LabelTooShort => Utf16Length(name) < 2
    case LabelBadChars => exists k :: 0 <= k < |name| && !IsLabelChar(name[k])
    case JobGpusInvalid => f.jobGPUs !in JobGpuOptions
    case IterationsTooSmall => f.iterations < 1.0
    case LearningRateNotPositive => f.learningRate <= 0.0
    case OptimizerInvalid => f.optimizer !in Optimizers
    case LossFunctionInvalid => f.lossFunction !in LossFunctions
    case NetworkTypeInvalid => f.networkTypeName !in NetworkTypes
    case PatchSizeInvalid => f.patchSize !in PatchSizes
  }

  /** The rules among `rules` that `f` breaks, in their order. */
  function Failing(f: Form, partitions: seq<string>, gpuOptions: seq<string>, rules: seq<Issue>): (r: seq<Issue>)
    ensures forall i :: i in r <==> i in rules && Fails(f, partitions, gpuOptions, i)
    ensures |r| <= |rules|
  {
    if rules == [] then []
    else
      var rest := Failing(f, partitions, gpuOptions, rules[1..]);
      assert forall i :: i in rules <==> i == rules[0] || i in rules[1..];
      if Fails(f, partitions, gpuOptions, rules[0]) then [rules[0]] + rest else rest
  }

  /** The schema order lists every rule. */
  lemma AllRulesListed()
    ensures forall i :: i in SchemaOrder
  {
    forall i ensures i in SchemaOrder {
      match i
      case PartitionInvalid => assert SchemaOrder[0] == i;
      case GpuOptionInvalid => assert SchemaOrder[1] == i;
      case LabelTooShort => assert SchemaOrder[2] == i;
      case LabelBadChars => assert SchemaOrder[3] == i;
      case JobGpusInvalid => assert SchemaOrder[4] == i;
      case IterationsTooSmall => assert SchemaOrder[5] == i;
      case LearningRateNotPositive => assert SchemaOrder[6] == i;
      case OptimizerInvalid => assert SchemaOrder[7] == i;
      case LossFunctionInvalid => assert SchemaOrder[8] == i;
      case NetworkTypeInvalid => assert SchemaOrder[9] == i;
      case PatchSizeInvalid => assert SchemaOrder[10] == i;
    }
  }

  /** Every failed rule of `f`, in the order the schema lists its fields. */
  function Issues(f: Form, partitions: seq<string>, gpuOptions: seq<string>): (r: seq<Issue>)
    ensures forall i :: i in r <==> Fails(f, partitions, gpuOptions, i)
  {
    AllRulesListed();
    Failing(f, partitions, gpuOptions, SchemaOrder)
  }

  /** The network label rule on its own: at least two UTF-16 code units, all
      of them letters, digits or underscores. */
  predicate LabelOk(name: string)
  {
    Utf16Length(name) >= 2 && forall k :: 0 <= k < |name| ==> IsLabelChar(name[k])
  }

  /** The schema accepts `f`. */
  predicate Valid(f: Form, partitions: seq<string>, gpuOptions: seq<string>)
  {
    Issues(f, partitions, gpuOptions) == []
  }

  /** The schema accepts exactly the forms that meet every field rule. */
  lemma ValidIffRules(f: Form, partitions: seq<string>, gpuOptions: seq<string>)
    ensures Valid(f, partitions, gpuOptions) <==>
              && LabelOk(f.networkUserLabel)
              && f.iterations >= 1.0
              && f.learningRate > 0.0
              && f.patchSize in PatchSizes
              && f.networkTypeName in NetworkTypes
              && f.optimizer in Optimizers
              && f.lossFunction in LossFunctions
              && f.jobGPUs in JobGpuOptions
              && InEnum(f.slurmOptions.partition, partitions)
              && InEnum(f.slurmOptions.nGPU, gpuOptions)
  {
    var r := Issues(f, partitions, gpuOptions);
    assert !Fails(f, partitions, gpuOptions, LabelBadChars) <==>
             forall k :: 0 <= k < |f.networkUserLabel| ==> IsLabelChar(f.networkUserLabel[k]);
    if Valid(f, partitions, gpuOptions) {
      assert !Fails(f, partitions, gpuOptions, PartitionInvalid);
      assert !Fails(f, partitions, gpuOptions, GpuOptionInvalid);
      assert !Fails(f, partitions, gpuOptions, LabelTooShort);
      assert !Fails(f, partitions, gpuOptions, LabelBadChars);
      assert !Fails(f, partitions, gpuOptions, JobGpusInvalid);
      assert !Fails(f, partitions, gpuOptions, IterationsTooSmall);
      assert !Fails(f, partitions, gpuOptions, LearningRateNotPositive);
      assert !Fails(f, partitions, gpuOptions, OptimizerInvalid);
      assert !Fails(f, partitions, gpuOptions, LossFunctionInvalid);
      assert !Fails(f, partitions, gpuOptions, NetworkTypeInvalid);
      assert !Fails(f, partitions, gpuOptions, PatchSizeInvalid);
    } else {
      assert r[0] in r;
    }
  }

  /** `useNetworkForm`'s default values. The label and type may be supplied
      by the caller (when a finished network is finetuned); the partition has
      no default. */
  function DefaultValues(networkUserLabel: Option<string>, networkTypeName: Option<string>): (f: Form)
    ensures f.networkUserLabel == networkUserLabel.GetOr("")
    ensures f.networkTypeName == networkTypeName.GetOr("vnet")
    ensures f.slurmOptions.partition.None?
  {
    Form(
      slurmOptions := SlurmOptions(None, Some("1")),
      networkUserLabel := networkUserLabel.GetOr(""),
      dropClassifier := false,
      jobGPUs := "1",
      iterations := 1.0,
      learningRate := 0.00001,
      optimizer := "adam",
      lossFunction := "CrossEntropy",
      networkTypeName := networkTypeName.GetOr("vnet"),
      patchSize := "32")
  }

  /** The default values, checked against the schema: the empty default label
      fails the length rule (and only that label rule), the missing partition
      fails its rule, and every other default satisfies its own rule, given
      that "1" is among the GPU options. */
  lemma DefaultsAgainstSchema(partitions: seq<string>, gpuOptions: seq<string>)
    requires "1" in gpuOptions
    ensures forall i :: i in Issues(DefaultValues(None, None), partitions, gpuOptions) <==>
                          i == PartitionInvalid || i == LabelTooShort
  {
  }

  /** With a caller-supplied label and type that meet their own rules, the
      missing partition is the only thing the default form gets wrong. */
  lemma SuppliedDefaultsOnlyLackPartition(userLabel: string, networkType: string, partitions: seq<string>, gpuOptions: seq<string>)
    requires LabelOk(userLabel) && networkType in NetworkTypes && "1" in gpuOptions
    ensures forall i :: i in Issues(DefaultValues(Some(userLabel), Some(networkType)), partitions, gpuOptions) <==>
                          i == PartitionInvalid
  {
  }
}
