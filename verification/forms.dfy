/** The form payloads of the dataset, inference, augmentation and finetune
    nodes. Their schema files are not part of this model; the fields below
    are the ones the core reads. Numeric fields are kept as the text the
    command line receives. */
module Forms {

  /** One image/label pair of a dataset form (`label` is a Dafny keyword, so
      the label path is called `labelPath` here). */
  datatype DataPair = DataPair(image: string, labelPath: string)

  datatype DatasetSlurm = DatasetSlurm(partition: string)

  datatype DatasetForm = DatasetForm(
    datasetName: string,
    data: seq<DataPair>,
    classes: string,
    sampleSize: string,
    patchSize: string,
    slurmOptions: DatasetSlurm)

  datatype Image = Image(name: string, path: string)

  datatype InferenceSlurm = InferenceSlurm(partition: string, nGPU: string)

  datatype InferenceForm = InferenceForm(
    outputDir: string,
    inputImages: seq<Image>,
    paddingSize: string,
    patchSize: string,
    saveProbMap: bool,
    normalize: bool,
    slurmOptions: InferenceSlurm)

  /** Only the output name of an augmentation form is read by the core. */
  datatype AugmentationForm = AugmentationForm(augmentedDatasetName: string)

  /** A finetune form is stored and forwarded whole; the core reads none of
      its fields. */
  datatype FinetuneForm = FinetuneForm(fields: seq<(string, string)>)
}
