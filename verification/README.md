# deepsirius-ui per-node job lifecycle, in Dafny

deepsirius-ui is a web workboard for segmentation pipelines. Each node on the board is a dataset, network, finetune, augmentation or inference step. A node submits a batch job to a Slurm cluster, polls the job's status, and shows one of five statuses: `active`, `inactive`, `busy`, `success` and `error`. This project models how that status changes, in the two styles the code uses.

- **The xstate machines.** The network node and the inference node are statecharts. Each has states, a context, guards, actions and invoked services.
  - The models make every asynchronous completion an explicit event: the submission settling, a poll answer, a poll failure.
  - One step returns the next snapshot together with the requests the machine makes (submit, poll, cancel).
  - Each machine also comes with its projection to a node status, the observer that persists a status change, and rehydration from the persisted snapshot.
- **The node-record reducers.** The dataset, finetune and augmentation nodes keep their status as a field of the node record. That record is rewritten by the submit handler, the cancel handler and the effect that receives each poll answer.
  - The finetune node's upstream lookup is a walk over the edge list.
  - The augmentation node's source lookup is a function of the upstream record.
- **Pure helpers around the lifecycle:**
  - the network form's validation rules and default values;
  - the command lines and batch scripts the submission router builds, and its rule that turns the scheduler's output into a job id or an error;
  - the image gallery's neighbour selection;
  - the node menu's create and clone operations.

Modules follow the source files:

| module | file | concern |
|---|---|---|
| `Wrappers`, `Strings` | wrappers.dfy, strings.dfy | `Option`/`Result`. The JavaScript string operations the core relies on: `split`, `join`, `pop`, `replace`, `repeat`, `trim`, number rendering. |
| `Lifecycle` | lifecycle.dfy | The node status, the scheduler's job-status names, the guard order, and how submissions, polls and cancellations settle. |
| `Forms`, `Graph` | forms.dfy, graph.dfy | Form payloads, node records, nodes and edges. |
| `NetworkMachine`, `InferenceMachine` | network_machine.dfy, inference_machine.dfy | The two statecharts. |
| `JobRecord`, `DatasetNode`, `FinetuneNode`, `AugmentationNode` | job_record.dfy, dataset_node.dfy, finetune_node.dfy, augmentation_node.dfy | The record reducers. |
| `NetworkForm` | network_form.dfy | The network form schema. |
| `ProcessRouter` | process_router.dfy | The submission routes, without SSH. |
| `ImageGallery`, `CloneNode` | image_gallery.dfy, clone_node.dfy | The gallery selection and the node menu. |

Parameters stand in for several things:

- The container settings read from the environment.
- The menu's node-type list and the slurm partition and GPU option lists. These are defined in files outside this model.
- The ids `nanoid` generates.
- The rendering of the network form's two numeric fields.

## Design description versus code

The models follow the code where it departs from the system's design description.

- **The guards read the stored job status.** The design has each poll answer classified directly. In the code, both machines' guards read `context.jobStatus`. Only the fall-through branch stores the answer. So a `COMPLETED` or `FAILED` answer is first stored and polled again, and the transition happens on the next answer (`NetworkMachine.TerminalStatusNeedsTwoPolls`).
- **`CANCELLED` is not terminal in the reducer nodes.** The design treats `CANCELLED` as a terminal status that stops polling. In the dataset, finetune and augmentation nodes, a `CANCELLED` answer falls into the "still busy" branch and polling continues (`JobRecord.PollingContinuesUnlessTerminal`).
- **A failed status query stalls the machines.** Neither machine handles a failed status query, so the machine stays `running` and never polls again (`NetworkMachine.StalledAfterPollError`).

## Model

| member | source | states |
|---|---|---|
| Lifecycle.StatusOfName | src/components/workboard/network-node.tsx:284-287 | Every status name is read as a status, and any status read has exactly the name read. Other strings give none. |
| Lifecycle.FirstGuard | src/components/workboard/network-node.tsx:294-304 | The first guard that holds for a stored job status: isCompleted exactly for COMPLETED, isFailed exactly for FAILED, isCancelled exactly for CANCELLED, none otherwise. |
| Graph.FirstEdgeInto | src/components/workboard/network-node.tsx:224 | `edges.find` on the target: none exactly when no edge leads into the node, otherwise an edge into the node with none before it. |
| Graph.FindNode | apps/deepsirius-ui/src/components/workboard/finetune-node.tsx:34-36 | `nodes.find` on the id: none exactly when no node has the id, otherwise the first node of the list with that id. |
| NetworkMachine.Step | src/components/workboard/network-node.tsx:60-206 | One event: the state changes only along a move the chart draws, and at most one request is made. Label and type change only when a submission resolves in pending. The job id changes only then, or is cleared. A submit request is made only on entering pending, a poll only in running for the stored job id, and a cancel only in running, leaving the snapshot unchanged. |
| NetworkMachine.EveryMoveTaken | src/components/workboard/network-node.tsx:60-206 | Every move the chart draws is taken by some event from some context. |
| NetworkMachine.PollDecidedByStoredStatus | src/components/workboard/network-node.tsx:97-116 | In running, the next state after a poll answer depends only on the stored job status, not on the answer. |
| NetworkMachine.TerminalStatusNeedsTwoPolls | src/components/workboard/network-node.tsx:97-116 | From running with an empty stored status, a COMPLETED or FAILED answer keeps the machine running and stores it. The next answer, whatever it says, then moves to success or error. |
| NetworkMachine.CancelIsActionOnly | src/components/workboard/network-node.tsx:118-122 | `cancel` never changes the snapshot. In running it requests the cancellation of the stored job id, and elsewhere it does nothing. |
| NetworkMachine.StalledAfterPollError | src/components/workboard/network-node.tsx:94-123 | A failed status query leaves a running machine as it is and requests no further poll. From there, no run of user events (activate, start, cancel, retry, finetune) moves it. |
| NetworkMachine.SubmissionOutcome | src/components/workboard/network-node.tsx:75-92 | A resolved submission moves pending to running, recording the job id (or "" when none came back) and the label and type of the form it carries ("network" and "unet2d" without a form). A rejected one moves to the phase's error with the context unchanged. |
| NetworkMachine.RetryAndFinetune | src/components/workboard/network-node.tsx:124-141 | Retry moves a phase's error to its pending, clears the job id and status, and requests the submission of the given form. Finetune does the same from success into tuning's pending. Both events are ignored in every other state. |
| NetworkMachine.UnhandledIgnored | src/components/workboard/network-node.tsx:60-141 | An event the current state declares no handler for leaves the snapshot unchanged and requests nothing. |
| NetworkMachine.ActivateThenStart | src/components/workboard/network-node.tsx:61-71 | Inactive leaves only on `activate`, to active. Active leaves only on `start training`, to training's pending, requesting the submission of the form. The context is kept. |
| NetworkMachine.RunKeepsInv | src/components/workboard/network-node.tsx:53-206 | Every run from a snapshot meeting the invariant keeps it. Inactive and active keep the declared context. Pending has no job id or status. Success holds COMPLETED. An error state holds FAILED or CANCELLED, or has no job id. |
| NetworkMachine.DefineStatus | src/components/workboard/network-node.tsx:258-288 | A nested value gives a status exactly for the six phase/sub-state pairs: error for the error sub-state and busy otherwise. A top-level value gives the status its name spells. |
| NetworkMachine.DefineStatusTotal | src/components/workboard/network-node.tsx:258-288 | `defineStatus` never throws on a state of this machine, and it gives the status that state stands for. |
| NetworkMachine.Observe | src/components/workboard/network-node.tsx:357-373 | The observer persists exactly when the projected status differs from the shown one, and it persists that status together with the snapshot. |
| NetworkMachine.Rehydrate | src/components/workboard/network-node.tsx:251-255 | Without a persisted snapshot the node starts inactive with the declared context. Otherwise it resumes the persisted snapshot. |
| NetworkMachine.DeliverAllCoherent | src/components/workboard/network-node.tsx:357-373 | Through any run of events, the observer keeps the shown status equal to the live state's status and to the persisted record. |
| NetworkMachine.ReloadShowsSameStatus | src/components/workboard/network-node.tsx:251-255 | Mounting a coherent node again from its persisted record shows the same status. |
| NetworkMachine.MayActivate | src/components/workboard/network-node.tsx:223-231 | `activate` is sent exactly when the first edge into the node has a non-empty source. |
| NetworkMachine.FirstEdgeDecides | src/components/workboard/network-node.tsx:223-225 | A first edge without a source blocks activation even when a later edge has one, and an earlier edge into another node does not matter. |
| NetworkMachine.ActivationFromConnectedSource | src/components/workboard/network-node.tsx:223-231 | With such an edge, an inactive node becomes active. |
| NetworkMachine.RunConcat | src/components/workboard/network-node.tsx:60-206 | Running two event sequences one after the other is running their concatenation. |
| NetworkMachine.FinetuneFailureScenario | src/components/workboard/network-node.tsx:60-206 | Concrete lifecycle: training fails, a retry completes, then a finetuning job fails. The machine ends in tuning's error with the third job's id, FAILED, and the finetuning form's label and type. |
| InferenceMachine.Step | src/components/workboard/inference-node.tsx:54-140 | One event: the state changes only along a drawn move, and at most one request is made. The job id and images change only when a submission resolves in pending. A submit request is made only on entering pending, a poll only in running for the stored job id, and a cancel only in running, leaving the snapshot unchanged. |
| InferenceMachine.EveryMoveTaken | src/components/workboard/inference-node.tsx:54-140 | Every move the chart draws is taken by some event. |
| InferenceMachine.ActivateIgnored | src/components/workboard/inference-node.tsx:47-66 | `activate` changes nothing in any state. |
| InferenceMachine.UnhandledIgnored | src/components/workboard/inference-node.tsx:60-140 | An event the current state declares no handler for leaves the snapshot unchanged and requests nothing. Cancel is handled only while the job runs. |
| InferenceMachine.StartSubmits | src/components/workboard/inference-node.tsx:61-66 | Active leaves only on `start`, to busy's pending, requesting the submission of the form with the context kept. |
| InferenceMachine.SubmissionOutcome | src/components/workboard/inference-node.tsx:71-87 | A resolved submission moves to running with the returned job id (`?? ''`) and the form's images (`?? []`), and polls that id. A rejected one moves to error with the context kept. |
| InferenceMachine.CancelIsActionOnly | src/components/workboard/inference-node.tsx:114-118 | `cancel` never changes the snapshot. In running it requests the cancellation of the stored job id, and elsewhere it does nothing. |
| InferenceMachine.PollDecidedByStoredStatus | src/components/workboard/inference-node.tsx:89-113 | In running, the next state after a poll depends only on the stored job status. |
| InferenceMachine.RestartKeepsJobId | src/components/workboard/inference-node.tsx:122-139 | Retry (from error) and finetune (from success) go to pending, clear only the job status, and request exactly one new submission of the given form. The old job id and images stay until it resolves. Elsewhere neither event moves the machine. |
| InferenceMachine.RunKeepsInv | src/components/workboard/inference-node.tsx:54-140 | Every run from a snapshot meeting the invariant keeps it. Active keeps the empty context. Pending has no status. Success holds COMPLETED. Error holds FAILED, CANCELLED or no status. |
| InferenceMachine.Tags | src/components/workboard/inference-node.tsx:62-132 | Every state carries exactly one tag. |
| InferenceMachine.FirstTagIsStatus | src/components/workboard/inference-node.tsx:233 | The first tag, read as a status, is always a status name, and it is the status the state stands for. |
| InferenceMachine.Observe | src/components/workboard/inference-node.tsx:231-247 | The observer persists exactly when the first tag differs from the shown status. |
| InferenceMachine.Rehydrate | src/components/workboard/inference-node.tsx:164-168 | Without a persisted snapshot the node starts active with an empty context. |
| InferenceMachine.DeliverAllCoherent | src/components/workboard/inference-node.tsx:231-247 | Through any run of events, the shown and persisted status stay equal to the live state's tag. |
| InferenceMachine.BusyMovesNotPersisted | src/components/workboard/inference-node.tsx:67-121 | A move between pending and running keeps the busy tag, so nothing is persisted. |
| JobRecord.PollUpdate | src/components/workboard/dataset-node.tsx:58-118 | A poll answer gives success exactly for COMPLETED, error exactly for FAILED, and busy otherwise (CANCELLED included). It stores the answer's status and changes no other field. The dataset node applies it to every answer, whatever its own status. |
| JobRecord.CancelUpdate | src/components/workboard/dataset-node.tsx:253-282 | A successful cancellation sets error and CANCELLED and keeps the job id. A rejected one changes nothing. The dataset, finetune and augmentation nodes all cancel this way. |
| JobRecord.PollingContinuesUnlessTerminal | src/components/workboard/dataset-node.tsx:51-117 | A polling node keeps polling after an answer exactly when the answer is neither COMPLETED nor FAILED. CANCELLED keeps it polling. |
| JobRecord.CancelStopsPolling | src/components/workboard/dataset-node.tsx:28-56 | After a successful cancellation the node stops polling, its edit sheet opens when selected, and it keeps its job id. |
| JobRecord.PollUpdateIdempotent | src/components/workboard/dataset-node.tsx:58-118 | Receiving the same answer again changes nothing more. |
| DatasetNode.DefaultDatasetName | src/components/workboard/dataset-node.tsx:37-40 | Without a remote path the name is "NewDataset". Otherwise it is the last `/` piece with its first ".h5" removed. |
| DatasetNode.OnSubmit | src/components/workboard/dataset-node.tsx:126-164 | A rejected submission or an empty job id leaves the record unchanged. Otherwise the record becomes busy, with the job id and the remote path `<workspace>/datasets/<name>.h5`, and nothing else changes. |
| DatasetNode.SubmitStartsPolling | src/components/workboard/dataset-node.tsx:51-56 | After a submission with a non-empty job id the node polls, and its edit sheet stays closed. |
| DatasetNode.LastPieceOfDatasetPath | src/components/workboard/dataset-node.tsx:148 | The last `/` piece of the stored remote path is `<name>.h5` for a name without `/`. |
| DatasetNode.DefaultNameRoundTrip | src/components/workboard/dataset-node.tsx:37-40 | A name without `/` and without ".h5" comes back as the default name after submission. |
| DatasetNode.DefaultNameLosesInnerH5 | src/components/workboard/dataset-node.tsx:37-40 | As written, the name "a.h5b" comes back as "ab.h5". |
| DatasetNode.DefaultDatasetNameBySuffix | src/components/workboard/dataset-node.tsx:37-40 | Corrected reading: a trailing ".h5" is removed from the last piece, and nothing else. |
| DatasetNode.DefaultNameBySuffixRoundTrip | src/components/workboard/dataset-node.tsx:37-40 | With the corrected reading, every name without `/` comes back after submission. |
| DatasetNode.DefaultNamesAgree | src/components/workboard/dataset-node.tsx:37-40 | On names without an inner ".h5", both readings agree. |
| FinetuneNode.SourceNodes | apps/deepsirius-ui/src/components/workboard/finetune-node.tsx:31-36 | Every node found is on the board and some edge into the node comes from it. |
| FinetuneNode.SourceNodesInEdgeOrder | apps/deepsirius-ui/src/components/workboard/finetune-node.tsx:31-36 | Built edge by edge: no edges give no sources. Each edge into the node appends the `nodes.find` result for its source, none when that node is missing. Any other edge appends nothing. So there is one entry per edge into the node, in edge order. |
| FinetuneNode.SourceNodesAppend | apps/deepsirius-ui/src/components/workboard/finetune-node.tsx:31-36 | The sources of two edge lists put together are the sources of each, in the same order. |
| FinetuneNode.FirstOfType | apps/deepsirius-ui/src/components/workboard/finetune-node.tsx:37-44 | The first source of a type: none exactly when no source has that type, otherwise one of that type with none of that type before it. |
| FinetuneNode.GetSourceData | apps/deepsirius-ui/src/components/workboard/finetune-node.tsx:30-57 | Provenance: every value found was read from a node some edge into this node comes from, and from the right kind of node. A dataset name comes from a dataset or an augmentation; a label and a type come from a network or a finetune node. |
| FinetuneNode.FirstSource | apps/deepsirius-ui/src/components/workboard/finetune-node.tsx:37-44 | A direct reading off the edge list: none exactly when no edge into the node comes from a board node of the type. Otherwise it is that node of the first such edge, with no such edge before it. |
| FinetuneNode.FirstOfTypeIsFirstSource | apps/deepsirius-ui/src/components/workboard/finetune-node.tsx:31-44 | Looking a type up in the list of sources gives the same node as reading it off the edges. |
| FinetuneNode.GetSourceDataByEdges | apps/deepsirius-ui/src/components/workboard/finetune-node.tsx:46-56 | For every board: the dataset name is the first upstream dataset node's name when that node holds dataset data. Otherwise it is the source name recorded by the first upstream augmentation, or none. Label and type come from the first upstream network node when it holds network data. Otherwise they are those recorded by the first upstream finetune node, or none. |
| FinetuneNode.DisconnectedFindsNothing | apps/deepsirius-ui/src/components/workboard/finetune-node.tsx:30-57 | A node with no edge into it finds no source values. |
| FinetuneNode.DatasetBeatsAugmentation | apps/deepsirius-ui/src/components/workboard/finetune-node.tsx:37-49 | With both an upstream dataset with data and an augmentation, in either edge order, the dataset's name is used. |
| FinetuneNode.PrepareSubmit | apps/deepsirius-ui/src/components/workboard/finetune-node.tsx:158-167 | A submission is prepared exactly when the dataset name, network label and network type are all present and non-empty. A missing dataset name is the reason reported exactly when it is missing. |
| FinetuneNode.OnSubmitResult | apps/deepsirius-ui/src/components/workboard/finetune-node.tsx:175-219 | A non-empty job id makes the node poll, with the job id, an empty remote path and the finetune data (the sources and the form). An empty one changes nothing. A rejection sets error with an empty job id and remote path. The job status and workspace are never touched. |
| FinetuneNode.OnPoll | apps/deepsirius-ui/src/components/workboard/finetune-node.tsx:82-150 | The effect acts only on a busy node with an answer. COMPLETED gives success, but only when finetune data exists (otherwise nothing changes). FAILED gives error, and anything else keeps the node busy with the status stored. |
| FinetuneNode.OnPollIdempotent | apps/deepsirius-ui/src/components/workboard/finetune-node.tsx:82-150 | On the modelled fields (all but the message and the date), running the effect again with the same answer changes nothing more. |
| FinetuneNode.SubmittedJobCompletes | apps/deepsirius-ui/src/components/workboard/finetune-node.tsx:85-110 | A node submitted through the handler has finetune data, so a COMPLETED answer makes it successful. |
| AugmentationNode.GetSourceDatasetData | apps/deepsirius-ui/src/components/workboard/augmentation-node.tsx:30-46 | The upstream dataset's name and images, in its pairs' order, or "" and no images. |
| AugmentationNode.SuggestedNameNamesSource | apps/deepsirius-ui/src/components/workboard/augmentation-node.tsx:48-53 | The suggestion is "source_not_found" exactly when there is no source name. Otherwise it is the source name followed by "_augmented". |
| AugmentationNode.PrepareSubmit | apps/deepsirius-ui/src/components/workboard/augmentation-node.tsx:140-144 | A submission is prepared exactly when the source name is non-empty. |
| AugmentationNode.OnSubmitResult | apps/deepsirius-ui/src/components/workboard/augmentation-node.tsx:139-179 | A resolved submission makes the node busy with whatever job id came back. The remote path and the augmentation data's remote path are both `<workspace>/datasets/<augmented name>.h5`. The data records the form, the output name and the source dataset's name. No other field changes, and a rejection changes nothing. |
| AugmentationNode.AugmentedPathNamesDataset | apps/deepsirius-ui/src/components/workboard/augmentation-node.tsx:151-173 | The augmented dataset's remote path is the one a dataset node of the same name in the same workspace stores. For a name without `/`, removing the `.h5` ending from its last piece gives the name back. |
| AugmentationNode.EmptyJobIdNeverPolls | apps/deepsirius-ui/src/components/workboard/augmentation-node.tsx:64-72 | An empty job id is accepted: the node becomes busy but never polls. |
| AugmentationNode.OnPoll | apps/deepsirius-ui/src/components/workboard/augmentation-node.tsx:74-133 | The effect acts only on a busy node with an answer, and then it is the shared poll update. |
| AugmentationNode.OnPollIdempotent | apps/deepsirius-ui/src/components/workboard/augmentation-node.tsx:74-133 | On the modelled fields (all but the message and the date), running the effect again with the same answer changes nothing more. |
| NetworkForm.Issues | src/components/workboard/node-component-forms/network-form.tsx:34-64 | An issue is reported exactly when the form breaks the rule behind it. |
| NetworkForm.Utf16Length | src/components/workboard/node-component-forms/network-form.tsx:37-41 | The label length the `min(2)` rule measures counts UTF-16 code units: between one and two per character, and exactly one per character only when none lies beyond the Basic Multilingual Plane. |
| NetworkForm.LabelCharsCountOnce | src/components/workboard/node-component-forms/network-form.tsx:37-45 | For a label the pattern accepts, the code-unit length equals the character count. |
| NetworkForm.AstralLabelFailsOnlyPattern | src/components/workboard/node-component-forms/network-form.tsx:37-45 | A one-emoji label passes the length rule (two code units) and fails only the pattern rule. |
| NetworkForm.ValidIffRules | src/components/workboard/node-component-forms/network-form.tsx:34-64 | The schema accepts a form exactly when all of these hold: a listed partition and GPU option; a label of at least two characters from letters, digits and `_`; GPUs in {1,2,4}; iterations ≥ 1; a positive learning rate; a listed optimizer, loss and network type; and a patch size in {16,…,1024}. |
| NetworkForm.DefaultValues | src/components/workboard/node-component-forms/network-form.tsx:75-97 | The label and type default to "" and "vnet" unless supplied. The partition has no default. |
| NetworkForm.DefaultsAgainstSchema | src/components/workboard/node-component-forms/network-form.tsx:75-97 | The plain defaults fail exactly two rules: the missing partition and the too-short label. |
| NetworkForm.SuppliedDefaultsOnlyLackPartition | src/components/workboard/node-component-forms/network-form.tsx:75-97 | With a supplied valid label and type, the defaults fail only for the missing partition. |
| ProcessRouter.SbatchLines | src/server/api/routers/remote-node-process-router.ts:201-210 | The script starts with the shebang and ends with the command. The job name and partition sit in their fixed lines. The output, error and one-task lines follow in a fixed order. Line 6 is the GPU line exactly when GPUs are asked for (8 lines); otherwise it is the command (7 lines). |
| ProcessRouter.SbatchReadsBack | src/server/api/routers/remote-node-process-router.ts:139-147 | For one-line fields, splitting the script at newlines gives back its lines. |
| ProcessRouter.SubmissionOutcome | src/server/api/routers/remote-node-process-router.ts:157-169 | Any error output fails with that output as the message. Otherwise the job id is the trimmed standard output. |
| ProcessRouter.JobIdRoundTrip | src/server/api/routers/remote-node-process-router.ts:219-231 | A job id printed with surrounding white space is returned as printed. |
| ProcessRouter.FlagListWords | src/server/api/routers/remote-node-process-router.ts:94-99 | A flag list splits into the flag before each value, in input order. |
| ProcessRouter.TripleWords | src/server/api/routers/remote-node-process-router.ts:89 | A repeated value reads as three copies of the value, then an empty word from the trailing space. |
| ProcessRouter.WorkspaceScriptShape | src/server/api/routers/remote-node-process-router.ts:38-53 | The workspace script has 7 lines: the fixed job name, the "proc2" partition, no GPU line, and the workspace command last. |
| ProcessRouter.DatasetScriptShape | src/server/api/routers/remote-node-process-router.ts:83-147 | The dataset script has 7 lines: the form's partition, no GPU line, and exactly the container launcher, a space and the dataset command line last. |
| ProcessRouter.DatasetInputWords | src/server/api/routers/remote-node-process-router.ts:94-101 | One `--input-imgs` per pair, then one `--input-labels` per pair, each in pair order. |
| ProcessRouter.UseFinetuneIffFinetune | src/server/api/routers/remote-node-process-router.ts:191-195 | The training options end with `--use-finetune` exactly for a finetuning run. |
| ProcessRouter.NetworkSbatch | src/server/api/routers/remote-node-process-router.ts:20-25 | The network route refuses an empty dataset path or a form the schema rejects, and otherwise builds the script. That script has the form's partition and GPUs, and a container launched without `--no-home`. |
| ProcessRouter.InferenceKwargWords | src/server/api/routers/remote-node-process-router.ts:252-263 | The inference options, word by word: padding and border three times each, `--out-net-op` with save_prob_map exactly when the probability map is asked for, and `--norm-data` exactly when normalising. |
| ProcessRouter.InferenceSbatch | src/server/api/routers/remote-node-process-router.ts:27-31 | The inference route refuses exactly an empty network name, and otherwise builds the script with the form's partition and GPUs. |
| ProcessRouter.InferenceScriptShape | src/server/api/routers/remote-node-process-router.ts:266-275 | The inference script has 8 lines: the form's partition, its GPU line, and the inference command last. |
| ImageGallery.FindIndex | apps/deepsirius-ui/src/components/image-gallery.tsx:38 | -1 exactly when the image is absent. Otherwise the position of its first occurrence. |
| ImageGallery.OnSelectionChange | apps/deepsirius-ui/src/components/image-gallery.tsx:32-44 | No image clears the selection. Otherwise the selection holds the picked image. |
| ImageGallery.NeighboursOfPick | apps/deepsirius-ui/src/components/image-gallery.tsx:38-41 | Picking position k gives the image after it as right neighbour (none for the last) and the image before it as left neighbour (none for the first). |
| ImageGallery.RightThenLeft | apps/deepsirius-ui/src/components/image-gallery.tsx:38-41 | Stepping to the right neighbour and looking left comes back to the picked image. |
| ImageGallery.PickOfMissingImage | apps/deepsirius-ui/src/components/image-gallery.tsx:38-40 | An image not in the gallery is shown with the first image on its right and nothing on its left. |
| ImageGallery.OnOpenChange | apps/deepsirius-ui/src/components/image-gallery.tsx:52-57 | Closing the dialog clears the selection, and opening it changes nothing. |
| ImageGallery.OpenIffPicked | apps/deepsirius-ui/src/components/image-gallery.tsx:46 | The dialog is open exactly after a pick. |
| CloneNode.AllowedTypes | src/components/workboard/clone-node.tsx:43-45 | The offered types are exactly the listed types other than "new". |
| CloneNode.CreateNewNode | src/components/workboard/clone-node.tsx:27-40 | One node of the type, with the generated id, at (0, 50) and with empty data, is added after the existing nodes. |
| CloneNode.LastIndexOfType | src/components/workboard/clone-node.tsx:50-51 | -1 exactly when no node has the type. Otherwise a node of the type with none of it after. |
| CloneNode.CloneNode | src/components/workboard/clone-node.tsx:47-69 | Without a node of the type, cloning creates a new node. Otherwise it appends a node with id "node count + 1" holding only the last such node's snapshot. |
| CloneNode.CloneCopiesLatestSnapshot | src/components/workboard/clone-node.tsx:56-67 | The clone has the type, no status, job or path, and the snapshot of a node of its type that is at or after any given one. |
| CloneNode.CloneDuplicatesId | src/components/workboard/clone-node.tsx:57 | As written, a list whose only node has id "2" gets a second node with id "2". |
| CloneNode.NextId | src/components/workboard/clone-node.tsx:57 | Corrected id: no node of the list has it. |
| CloneNode.CloneNodeFresh | src/components/workboard/clone-node.tsx:47-69 | The corrected clone: the same node as `CloneNode` except that its id is `NextId`. |
| CloneNode.CloneFreshKeepsUniqueIds | src/components/workboard/clone-node.tsx:47-69 | With the corrected id, cloning keeps node ids unique. |
| Strings.SplitJoin | src/server/api/routers/remote-node-process-router.ts:45-53 | Joining parts with a separator they do not hold and splitting again gives the parts back. |
| Strings.LastPieceAfterSeparator | src/components/workboard/dataset-node.tsx:38-39 | `split('/').pop()` is the text after the last separator, whatever precedes it. |
| Strings.ReplaceFirst | src/components/workboard/dataset-node.tsx:39 | `replace` of a string: only the first occurrence is replaced. |
| Strings.Trim | src/server/api/routers/remote-node-process-router.ts:74 | `trim` gives back a contiguous slice of its input with no white space at either end, and everything cut off before and after that slice is white space. |
| Strings.TrimPadded | src/server/api/routers/remote-node-process-router.ts:168 | Trimming text padded with white space on both sides gives the text back. |
| Strings.ParseNatToString | src/components/workboard/clone-node.tsx:57 | Rendering a number in decimal and reading it back gives the number. |

## Left out

- SSH and file I/O (`putFile`, `execCommand`, the temporary script file), the React Query timers, promise scheduling, and xstate's interpreter. Each settled submission, poll or cancellation is an event or a parameter.
- Rendering, cards, sheets, toasts and alerts, and the message and date text of the records.
- FinetuneNode.OnPollIdempotent: holds for the modelled fields only. Each run of the status effect (finetune-node.tsx:82-150, augmentation-node.tsx:74-126) writes a new record with a fresh message and date. That record is one of the effect's own dependencies, so while the node stays busy the effect can fire again. How the store's `onUpdateNode` treats an update is not part of this model, so that re-firing is not modelled.
- AugmentationNode.OnPollIdempotent: the same limit as the finetune lemma.
- The JSON text of a persisted snapshot. Rehydration takes the persisted snapshot as a value.
- The dataset and inference form schemas. Their files are not part of this model, so the dataset route applies no form checks, and the inference route checks only the network name.
- The slurm partition and GPU option lists, and the menu's node-type list. They are defined in files outside this model and are parameters.
- Floating point. The network form's iterations and learning rate are reals, and the text the command line receives for them is a parameter.
- The switched-off augmentation branch of the dataset route, because it can never run.
- The generic job submission the network and inference machines invoke, because it builds a fixed test command. The machines see only whether the submission resolved and with which id.
- Where the augmentation node's upstream record comes from. That store lookup is a parameter of `GetSourceDatasetData`.
- `nanoid`. `CreateNewNode` receives the generated id as a parameter.
- ImageGallery.FindIndex: the gallery finds the picked image by object identity; the model compares images as values, so the neighbour lemmas ask for a gallery with no repeated image.
- ProcessRouter.SubmissionOutcome: the error carries only the scheduler's error text, not the error code around it.
- ProcessRouter.NetworkSbatch: when both the dataset path and the form are wrong, only the empty path is reported, whereas the input check reports every problem at once.

## Findings

| source | as written | input that shows it | evidently intended | confidence | as-written member | corrected member |
|---|---|---|---|---|---|---|
| src/components/workboard/dataset-node.tsx:37-40 | The default name removes the first ".h5" anywhere in the file name. | A dataset named "a.h5b" is stored as ".../datasets/a.h5b.h5" and comes back as "ab.h5". | Remove only the ".h5" extension at the end of the file name. | medium, not executed (the dataset form's name rules are not part of this model) | DatasetNode.DefaultNameLosesInnerH5 | DatasetNode.DefaultNameBySuffixRoundTrip |
| src/components/workboard/clone-node.tsx:56-57 | A clone's id is the node count plus one. | Clone a node, delete the original, and clone again: the single node with id "2" is joined by a second node with id "2". | Give every clone an id no node already has. | high, not executed | CloneNode.CloneDuplicatesId | CloneNode.CloneFreshKeepsUniqueIds |
