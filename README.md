# dn3 core, modelled in Dafny

dn3 is a small convenience layer for training classifiers on EEG trials. This project models the parts of it that are logic rather than calls into a tensor library. There are three.

- **Trial transforms** (`dn3/transforms/basic.py`, module `Transforms` in `transforms.dfy`):
  - the metadata hooks every transform inherits (`new_channels`, `new_sfreq`, `new_sequence_length`);
  - `TemporalPadding` in constant mode: its pad vector, the padding it applies and the sequence length it reports;
  - `MappingDeep1010`: the mapped trial `(x.T @ mapping).T`, its optional mask of column sums, and the channel names `new_channels` derives from the non-zero rows of each mapping column.
  A trial is a rectangular matrix of reals, one row per channel. A channel name is an optional string, because `new_channels` names a column that no input feeds `None`. The mapping matrix is an input: it is built in `channels.py`, which is not part of this model.
- **Keras layer shapes** (`layers.py`, module `Layers` in `layers.dfy`):
  - the output signatures of `ExpandLayer` and `SqueezeLayer`, including Python's `list.insert` clamping and negative indexing;
  - `get_config`;
  - the settings `AttentionLSTMIn.__init__` normalises;
  - the attention kernel and bias shapes `build` creates, on a class `AttentionLstmIn` whose `Build` method records them.
- **Training-loop bookkeeping** (`dn3/trainable/trainable.py`, modules `MetricDicts` in `metric_dicts.dfy` and `Trainable` in `trainable.dfy`):
  - `BaseTrainable.__init__`'s device string and moved-member set;
  - `train_step`;
  - `evaluate` with its running-average `update_metrics`;
  - `standard_logging`;
  - `StandardClassifier.fit`.
  The trainer is a class. The classifier, the loss and `calculate_metrics` are function-valued fields. Every call into the framework or the caller's code (train mode, forward, loss, `zero_grad`, backward, optimizer and scheduler steps, metric calculation, callbacks, `tqdm.write`) is appended to a trace field `calls`. The dictionaries the callbacks receive and the lines written are kept in their own fields. Each method is specified by functions of the old state and its inputs (`TrainLog`, `ValLog`, `FitCalls`, `Validated`, …). The properties of those functions are proved as lemmas: log lengths and layout, running means, and counts of each kind of call.

Metric dictionaries are insertion-ordered (`Metrics`: a key sequence plus a map). `d[k] = v`, `setdefault` and `dict(items)` keep Python's ordering rules. `calculate_metrics` is modelled by the items of the dictionary it returns.

`wrappers.dfy` holds `Option` and `Result`. `text.dfy` holds the string operations the core uses: `"-".join`, `str.rstrip`, `in` on strings and `str(n)`.

Where the code differs from the repository's own description, the model follows the code:
- `train_step` steps the optimizer and, when one is set, the scheduler (dn3/trainable/trainable.py:110-112). `fit` does not call `train_step`, and its own loop (dn3/trainable/trainable.py:216-232) never steps either, although its docstring promises training. `Trainable.FitNeverSteps` states this.
- `evaluate` calls `self.forward(inputs)` with the whole batch list, so the classifier is applied to that list (`Arg.TensorList`) rather than to its first tensor (dn3/trainable/trainable.py:143).

## Model

| member | source | states |
|---|---|---|
| `Text.RStrip` | dn3/trainable/trainable.py:151-152 | `str.rstrip()`: the result is a prefix of the input, everything dropped is whitespace, and the result does not end in whitespace |
| `Text.JoinSingle` | dn3/transforms/basic.py:147 | joining a single name gives that name unchanged |
| `Text.JoinLength` | dn3/transforms/basic.py:147 | a join is as long as its parts plus one separator between each neighbouring pair |
| `Transforms.ConstantPad2D` | dn3/transforms/basic.py:113 | constant-mode padding of a 2-D trial succeeds exactly for an even pad vector of at most 4 entries |
| `Transforms.TemporalPadding.NewSequenceLength` | dn3/transforms/basic.py:115-116 | the new length is the old one plus start and end padding |
| `Transforms.PadVectorShape` | dn3/transforms/basic.py:112 | the pad vector starts `[start, end]`, every later entry is 0, and its length is max(2, number of samples) |
| `Transforms.PadSequenceContents` | dn3/transforms/basic.py:90-116 | a padded channel has `new_sequence_length(n)` samples: `start_padding` copies of the constant, the input in order, then `end_padding` copies |
| `Transforms.TemporalPadding.IntendedCall` | dn3/transforms/basic.py:111-113 | the corrected call keeps the channel count, has `new_sequence_length` samples, and pads every channel with the constant |
| `Transforms.CallAcceptedExactly` | dn3/transforms/basic.py:111-113 | the call as written is accepted exactly for trials of at most 2 samples or of exactly 4 |
| `Transforms.CallAgreesWhenAccepted` | dn3/transforms/basic.py:111-113 | where the call as written is accepted, it returns the intended padding |
| `Transforms.FiveSampleTrialRefused` | dn3/transforms/basic.py:112-113 | a one-channel trial of five samples is refused by the call as written |
| `Transforms.ActiveRowsMembers` | dn3/transforms/basic.py:145 | a row is listed for column j exactly when its entry there is non-zero |
| `Transforms.ActiveRowsSorted` | dn3/transforms/basic.py:145 | the active rows are strictly increasing |
| `Transforms.ActiveRowsExactly` | dn3/transforms/basic.py:145 | `nonzero()` of a column: exactly the non-zero rows, in increasing order |
| `Transforms.ActiveRowsSingle` | dn3/transforms/basic.py:145 | a column with one non-zero row lists just that row |
| `Transforms.MappedChannels` | dn3/transforms/basic.py:142-150 | a successful run over k columns yields k names |
| `Transforms.MappedChannelsFailureSticks` | dn3/transforms/basic.py:142-150 | once a column raises, every longer run raises the same exception |
| `Transforms.MappingDeep1010.Call` | dn3/transforms/basic.py:135-140 | the call fails exactly on a channel-count mismatch; otherwise there is one row per mapping column, the sample count is kept, and entry (j,t) is Σ_i mapping[i][j]·x[i][t]; the mask is returned exactly when `return_mask` is set and holds the column sums |
| `Transforms.MappingDeep1010.NewChannels` | dn3/transforms/basic.py:142-150 | the loop over columns returns what `MappedChannels` specifies for all columns |
| `Transforms.MappingDeep1010.NameOfColumn` | dn3/transforms/basic.py:145-149 | one iteration: the loops over active rows compute `ColumnName` |
| `Transforms.ColumnNameContents` | dn3/transforms/basic.py:145-149 | a column gets `None` exactly when it is all zero; it is named exactly when every active row has a name (otherwise IndexError or TypeError); the name joins the active rows' names with "-" in row order |
| `Transforms.SingleActiveRowKeepsName` | dn3/transforms/basic.py:146-147 | a column with a single non-zero row takes that channel's name unchanged |
| `Transforms.MappedChannelsShape` | dn3/transforms/basic.py:142-150 | `new_channels` succeeds exactly when every column's name does, and then entry j is column j's name |
| `Transforms.MappedChannelsDefined` | dn3/transforms/basic.py:142-150 | for the whole mapping: success exactly when every non-zero row has a name; one entry per column, `None` exactly for an all-zero column |
| `Transforms.ColumnSumZero` | dn3/transforms/basic.py:138 | a non-negative column sums to zero exactly when all its entries are zero |
| `Transforms.MaskMarksUnnamedChannels` | dn3/transforms/basic.py:137-149 | with a non-negative mapping, a mask entry is 0 exactly when `new_channels` names that channel `None` |
| `Transforms.ColumnDotUnit` | dn3/transforms/basic.py:136 | a unit column picks out one input channel's sample |
| `Transforms.UnitColumnCopiesChannel` | dn3/transforms/basic.py:136 | an output channel whose column is the unit vector of input i carries channel i's samples |
| `Transforms.Transform.NewChannels` | dn3/transforms/basic.py:31-47 | the channel list is unchanged unless the transform is a MappingDeep1010 |
| `Transforms.Transform.NewSfreq` | dn3/transforms/basic.py:49-62 | the sampling rate is unchanged |
| `Transforms.Transform.NewSequenceLength` | dn3/transforms/basic.py:64-77 | the length is unchanged, except that TemporalPadding adds both paddings |
| `Transforms.ZScoreKeepsMetadata` | dn3/transforms/basic.py:31-85 | ZScore keeps the default hooks, so channels, sampling rate and length come back unchanged |
| `Transforms.PaddingHooksDescribeCall` | dn3/transforms/basic.py:111-116 | TemporalPadding's hooks give the channel list and sample count of the padded trial |
| `Transforms.MappingHooksDescribeCall` | dn3/transforms/basic.py:135-150 | MappingDeep1010's channel list has one entry per row of the mapped trial, and the length hook keeps the sample count |
| `Layers.NormaliseAxis` | layers.py:13-16 | a negative axis is offset by the signature length and may still be negative; a non-negative one is kept |
| `Layers.InsertPosition` | layers.py:17 | Python's `list.insert` index: kept inside the list, clamped to the end above it, offset from the end and then clamped to 0 below zero |
| `Layers.ExpandSignature` | layers.py:12-18 | the signature as written grows by one, with a 1 inserted at the clamped position `ax + 1` and everything else in order |
| `Layers.ExpandInsertsAfterAxis` | layers.py:17 | for `0 <= ax + 1 <= len(s)`, the expanded signature is `s[..ax+1] + [1] + s[ax+1..]` |
| `Layers.SqueezeRemovesOne` | layers.py:29-38 | with i the normalised axis read as a Python index (negative counts from the end): IndexError exactly when i is outside the signature; otherwise the signature without entry i exactly when that entry is 1, and ValueError exactly when it is not |
| `Layers.ExpandThenSqueeze` | layers.py:12-38 | for every axis in [-(len+1), -1], squeezing undoes expanding |
| `Layers.DefaultAxisRoundTrip` | layers.py:8-38 | with the default axis -1, expanding appends a 1 and squeezing removes it |
| `Layers.ExpandDimsShape` | layers.py:20-21 | the shape `tf.expand_dims` gives: defined exactly for axis in [-(len+1), len], one longer, with the 1 at the axis |
| `Layers.ExpandSignatureMatchesCallForNegativeAxes` | layers.py:12-21 | for negative axes the signature as written is the shape `call` produces |
| `Layers.ExpandSignatureMisplacesAxisZero` | layers.py:12-21 | for axis 0 it is not: (2, 3) is given (2, 1, 3), while `call` yields (1, 2, 3) |
| `Layers.ExpandDimsThenSqueeze` | layers.py:20-41 | with the shape `call` produces, squeezing at the same axis undoes expanding for every valid axis |
| `Layers.AxisLayer.ComputeOutputSignature` | layers.py:12-38 | ExpandLayer's signature is always one longer; SqueezeLayer's is one shorter when it succeeds |
| `Layers.AxisLayer.GetConfig` | layers.py:23-24 | the configuration holds the axis and nothing else |
| `Layers.ConfigRoundTrip` | layers.py:8-24 | a layer rebuilt from its configuration is the same layer |
| `Layers.InitSettings` | layers.py:62-76 | TypeError exactly for a style outside ATT_STYLES; the depth always equals the number of alignment units; a list argument sets the units and the depth; otherwise the depth is max(0, requested) and each unit is `alignment_units` if truthy, else `units`; a non-positive implementation becomes 2 |
| `Layers.UnitChain` | layers.py:83-88 | the unit chain has depth + 2 entries |
| `Layers.BuildWeights` | layers.py:78-106 | `build` fails its assertion exactly for an input of rank 2 or less |
| `Layers.KernelsChain` | layers.py:83-104 | depth + 1 kernels; the first reads units plus the last dimension (local) or `input_shape[1]` (global); consecutive kernels chain through the alignment units; the last writes channels (local) or samples (global); there is one bias per kernel, of its output width, exactly when `use_bias` is set |
| `Layers.AttentionLstmIn.constructor` | layers.py:62-76 | a new layer holds the normalised settings and is not built |
| `Layers.AttentionLstmIn.Build` | layers.py:78-107 | returns `BuildWeights`; on failure nothing changes; on success samples, channels, kernels and biases are recorded |
| `Layers.NewAttentionLstmIn` | layers.py:62-76 | a fresh layer with the normalised settings exactly when `InitSettings` succeeds, otherwise its TypeError |
| `MetricDicts.Put` | dn3/trainable/trainable.py:227-229 | `d[k] = v`: the value is set, a new key goes last, and an existing key keeps its place |
| `MetricDicts.PutExtendsKeys` | dn3/trainable/trainable.py:227-229 | an assignment keeps the existing keys, in order, at the front |
| `MetricDicts.PutKeepsWellFormed` | dn3/trainable/trainable.py:239 | an assignment keeps a dict's keys distinct and each key with a value |
| `MetricDicts.PutAllKeepsWellFormed` | dn3/trainable/trainable.py:227-229 | a run of assignments keeps a dict well formed |
| `MetricDicts.FromItemsWellFormed` | dn3/trainable/trainable.py:85-100 | a dict built from the items `calculate_metrics` returns is well formed |
| `MetricDicts.SetDefault` | dn3/trainable/trainable.py:225 | `setdefault`: the key is present afterwards; an existing key leaves the dict unchanged; a missing key is added last with the value |
| `MetricDicts.FirstMissing` | dn3/trainable/trainable.py:137-138 | no key is reported exactly when every key is present; a reported key is a batch key the accumulator lacks |
| `MetricDicts.FirstMissingAt` | dn3/trainable/trainable.py:137-138 | the KeyError names the first missing key in the batch's order |
| `MetricDicts.UpdateMetricsEffect` | dn3/trainable/trainable.py:133-138 | an empty accumulator copies the batch; otherwise KeyError exactly when the batch has a key the accumulator lacks; on success the key order is kept, each batch key becomes (old·(n−1)+new)/n, and keys missing from the batch are unchanged |
| `MetricDicts.AllAveraged` | dn3/trainable/trainable.py:137-138 | once every batch key has been averaged in, the result is the one `UpdateMetrics` specifies |
| `MetricDicts.UpdateMetricsInPlace` | dn3/trainable/trainable.py:133-138 | the in-place loop over the batch's keys computes `UpdateMetrics`, KeyError included |
| `MetricDicts.UpdateKeepsWellFormed` | dn3/trainable/trainable.py:133-138 | an update of well-formed dicts is well formed |
| `MetricDicts.AccumulateLast` | dn3/trainable/trainable.py:141-144 | the accumulator after all batches is `update_metrics` applied to that of all but the last, with iteration count len |
| `MetricDicts.AccumulateStep` | dn3/trainable/trainable.py:141-144 | batch i (from 0) is folded in as iteration i + 1 |
| `MetricDicts.AccumulateWellFormed` | dn3/trainable/trainable.py:131-147 | the accumulated dict is well formed |
| `MetricDicts.BatchesSeen` | dn3/trainable/trainable.py:141-144 | evaluate gets through at most all the batches |
| `MetricDicts.BatchesSeenAt` | dn3/trainable/trainable.py:141-144 | once batch j raises, evaluate has seen j batches and ends with that error |
| `MetricDicts.BatchesSeenAll` | dn3/trainable/trainable.py:141-147 | an evaluate that returns has seen every batch |
| `MetricDicts.MeanStep` | dn3/trainable/trainable.py:138 | one running-mean step takes the mean of n − 1 values to the mean of n |
| `MetricDicts.MeanUpdate` | dn3/trainable/trainable.py:137-138 | a batch reporting exactly the accumulated keys is averaged into every key |
| `MetricDicts.AccumulateIsMean` | dn3/trainable/trainable.py:131-147 | if every batch reports the same non-empty keys, evaluate returns them in the first batch's order, each the mean of its n values |
| `MetricDicts.AccumulateMeanStep` | dn3/trainable/trainable.py:133-144 | the mean of the first n − 1 batches, updated with batch n, is the mean of n |
| `MetricDicts.MeanOfOneMore` | dn3/trainable/trainable.py:138 | a single key's running mean after one more value is the mean of all of them |
| `MetricDicts.EmptyFirstResultIsCopied` | dn3/trainable/trainable.py:134-135 | if the first batch reported no metrics, the second batch's are copied, not averaged |
| `MetricDicts.FormatFor` | dn3/trainable/trainable.py:154-157 | percent format exactly when the name contains "acc" or "pct" |
| `MetricDicts.HeaderFacts` | dn3/trainable/trainable.py:151-152 | the start message fails at the index exactly when it is empty or all whitespace; otherwise its right-stripped form ends in `|` and begins with the right-stripped start |
| `MetricDicts.SegmentsEndInBar` | dn3/trainable/trainable.py:153-157 | every run of segments ends in " \|" |
| `MetricDicts.LogLineIsItsOwnHeader` | dn3/trainable/trainable.py:151-157 | a logged line given back as a start message is kept as it is |
| `MetricDicts.CheckedStart` | dn3/trainable/trainable.py:151-152 | the header check computes `Header`: IndexError, the start closed with " \|", or the start as it is |
| `MetricDicts.StandardLogging` | dn3/trainable/trainable.py:149-158 | the loop appends one " name: value \|" segment per metric, in dictionary order, to the checked header |
| `Trainable.DeviceName` | dn3/trainable/trainable.py:23-27 | a bool gives "cuda" or "cpu", a string is kept, and anything else fails the assertion |
| `Trainable.MovedMembers` | dn3/trainable/trainable.py:30-32 | the moved set as written: members present before `build_network` and absent after it |
| `Trainable.NewMembers` | dn3/trainable/trainable.py:30-35 | the corrected moved set: the members `build_network` added |
| `Trainable.MovedMembersMissAdditions` | dn3/trainable/trainable.py:30-35 | whatever `build_network` adds, the moved set as written contains none of it and is empty |
| `Trainable.ClassifierNeverMoved` | dn3/trainable/trainable.py:30-35 | for StandardClassifier, `classifier` is never moved to the device |
| `Trainable.NewMembersHoldClassifier` | dn3/trainable/trainable.py:30-35 | with the corrected set, `classifier` is the one member moved |
| `Trainable.Init` | dn3/trainable/trainable.py:12-37 | AssertionError exactly for a `cuda` that is neither bool nor str, or a missing classifier; otherwise a fresh trainer with that device, an empty moved set, the given or Adam default learning rate, the scheduler flag, and the classifier left in the mode it was passed in |
| `Trainable.NewStandardClassifier` | dn3/trainable/trainable.py:163-169 | StandardClassifier passes neither optimizer nor scheduler: Adam's default learning rate, no scheduler, nothing moved, and the classifier's mode unchanged |
| `Trainable.StandardClassifier.constructor` | dn3/trainable/trainable.py:12-37 | the trainer holds its hooks and settings, with an empty trace |
| `Trainable.StandardClassifier.TrainStep` | dn3/trainable/trainable.py:106-114 | returns the metrics of the step; training mode on; the trace grows by `TrainStepCalls` |
| `Trainable.TrainStepOrder` | dn3/trainable/trainable.py:102-114 | train mode, forward, loss, zero_grad, backward, optimizer step, then the scheduler step exactly when one is set, and metrics last |
| `Trainable.StandardClassifier.EvalBatch` | dn3/trainable/trainable.py:141-144 | one batch: a forward pass on the batch list, then metrics; the result is well formed |
| `Trainable.StandardClassifier.Evaluate` | dn3/trainable/trainable.py:116-147 | returns `Validated` (the running mean, or the KeyError); eval mode; the trace holds a forward and a metrics call for each batch up to the one that raises |
| `Trainable.EvalMetrics` | dn3/trainable/trainable.py:141-144 | one metrics dict per batch, in order |
| `Trainable.EvalMetricsWellFormed` | dn3/trainable/trainable.py:144 | every batch's metrics is a well-formed dict |
| `Trainable.ValidatedWellFormed` | dn3/trainable/trainable.py:116-147 | what evaluate returns is well formed |
| `Trainable.DefaultMetricsValidation` | dn3/trainable/trainable.py:100-147 | with the default `calculate_metrics`, evaluate returns an empty dict |
| `Trainable.StandardClassifier.FitStep` | dn3/trainable/trainable.py:219-232 | one step returns `TrainEntry`; the trace grows by forward, loss, zero_grad, backward and metrics, then the step callback if set, which receives the entry |
| `Trainable.TrainEntryValues` | dn3/trainable/trainable.py:224-229 | an entry holds the step's metrics plus loss, epoch, iteration and lr; loss is the metrics' own value if present, else the step's loss |
| `Trainable.TrainEntryOrder` | dn3/trainable/trainable.py:224-230 | an entry's keys begin with the metrics' keys, in their order |
| `Trainable.DefaultMetricsEntry` | dn3/trainable/trainable.py:224-229 | with the default `calculate_metrics`, an entry's keys are exactly loss, epoch, iteration, lr |
| `Trainable.StandardClassifier.TrainEpoch` | dn3/trainable/trainable.py:216-232 | one epoch's entries are `EpochEntries`, one per batch in order; trace and step-callback arguments grow accordingly |
| `Trainable.EpochEntriesShape` | dn3/trainable/trainable.py:219-230 | an epoch has one entry per batch, and entry i carries batch i with iteration i + 1 |
| `Trainable.StandardClassifier.ValidateEpoch` | dn3/trainable/trainable.py:234-242 | on an evaluate failure, the error with nothing written or called back; otherwise the entry tagged with the epoch, one summary line written, and the epoch callback if set |
| `Trainable.EpochHeaderAccepted` | dn3/trainable/trainable.py:237 | "End of Epoch N" always passes the header check and gets " \|" appended |
| `Trainable.StandardClassifier.RecordValidation` | dn3/trainable/trainable.py:234-242 | the validation half of an epoch extends the validation log, the written lines and the epoch-callback arguments by one entry each, or by nothing without a validation set |
| `Trainable.StandardClassifier.FitEpoch` | dn3/trainable/trainable.py:216-242 | one epoch takes the logs, trace, callback arguments and written lines from their state after epoch − 1 epochs to their state after epoch epochs, or fails with the evaluate error |
| `Trainable.StandardClassifier.Fit` | dn3/trainable/trainable.py:188-244 | fails exactly when it validates and evaluate raises; otherwise returns `TrainLog` and `ValLog` for max(0, epochs) epochs, with the trace `FitCalls`, the step callback receiving every train entry, the epoch callback every validation entry, and one summary line per validated epoch |
| `Trainable.TrainLogLength` | dn3/trainable/trainable.py:215-230 | the training log has epochs × len(training set) entries |
| `Trainable.TrainLogPrefix` | dn3/trainable/trainable.py:215-230 | the log of the first j epochs is a prefix of the log of k ≥ j epochs |
| `Trainable.TrainLogShape` | dn3/trainable/trainable.py:215-230 | epoch e fills positions (e−1)·n to e·n of the log with its entries, so entries are in (epoch, iteration) order |
| `Trainable.ValLogShape` | dn3/trainable/trainable.py:234-240 | one validation entry per epoch, entry e being evaluate's metrics tagged with epoch e + 1; empty without a validation set |
| `Trainable.ValEntryFields` | dn3/trainable/trainable.py:239-240 | a validation entry keeps evaluate's metrics and their order, and adds the epoch |
| `Trainable.SummaryLinesAt` | dn3/trainable/trainable.py:234-237 | one summary line per validated epoch, in epoch order; none without a validation set |
| `Trainable.SummaryLinesShape` | dn3/trainable/trainable.py:237 | each summary line starts with "End of Epoch N \|" for its own epoch |
| `Trainable.SummaryLineStart` | dn3/trainable/trainable.py:237 | a summary line is "End of Epoch N \|" followed by the metric segments |
| `Trainable.StepCallsCount` | dn3/trainable/trainable.py:219-232 | a step calls backward once and makes no optimizer step, scheduler step, train-mode switch, callback or write |
| `Trainable.EvalTraceCount` | dn3/trainable/trainable.py:141-144 | evaluate's loop makes none of those calls |
| `Trainable.EpochCallsCount` | dn3/trainable/trainable.py:216-232 | n steps of an epoch call backward n times and the step callback n times when set |
| `Trainable.ValidationCallsCount` | dn3/trainable/trainable.py:234-242 | a validation pass writes once, and calls the epoch callback once when set |
| `Trainable.OneEpochCount` | dn3/trainable/trainable.py:216-242 | the counted calls of one epoch are those of its steps plus those of its validation pass |
| `Trainable.FitCallsCount` | dn3/trainable/trainable.py:215-242 | over k epochs each counted call occurs k times as often as in one epoch |
| `Trainable.FitNeverSteps` | dn3/trainable/trainable.py:219-232 | fit never steps the optimizer or the scheduler and never switches training mode on |
| `Trainable.FitCallCounts` | dn3/trainable/trainable.py:215-242 | over k epochs: backward k·len(train) times; the step callback as often when set; one write per validated epoch; one epoch callback per validated epoch when set |

## Left out

- Tensor numerics: `ZScore.__call__` (floating-point mean and standard deviation), `square`, `log`, and `AttentionLSTMIn.step` (dot products, softmax, activations). Samples are reals and no floating-point rounding is modelled.
- `TemporalPadding` modes other than `constant`, and negative paddings (cropping). Paddings are naturals, matching the parameter's description as a number of padded samples.
- The construction of the mapping matrix (`map_channels_deep_1010`, `DEEP_1010_CHS_LISTING`, `mapped_channels`). `channels.py` is not part of this model; the mapping is an input.
- `dense_layer_1d`, `dense_block_1d`, `transition` and `preprocess_input`: they wire framework layers together with no logic of their own.
- The execution of `tf.expand_dims` and `tf.squeeze`. `Layers.ExpandDimsShape` gives the shape `tf.expand_dims` documents; the layers' `call` is not otherwise modelled.
- Keras weight creation (initialisers, regularisers, constraints) and `super().build`. `Layers.AttentionLstmIn.Build` records shapes only.
- `AttentionLSTMIn.build` takes its input shape as integers: an unknown (`None`) dimension, as Keras allows, cannot be represented there, unlike in the expand and squeeze signatures (`Dim`).
- `AttentionLSTMIn.__init__`: `int(x)` conversion of list entries, and the truthiness of `alignment_units` values other than lists, numbers and None.
- Python's `is` comparison of style strings is modelled as string equality.
- Autodiff, the optimizer's and scheduler's internals, and `.to(device)`. They are recorded as calls in the trace, or not at all. `torch.device` validation of the device string is left out: any string is accepted.
- The loss module (`CrossEntropyLoss` by default) is a function-valued field.
- The learning rate is a constant field. `fit` never steps the scheduler. The effect of `TrainStep`'s scheduler step on the learning rate is not modelled, so entries logged after such a step would show the old rate.
- The classifier's output is modelled as independent of train/eval mode. The mode itself is tracked (`training`). `evaluate` switches to eval mode and `fit` never switches back, so from epoch 2 on, with a validation set, training steps run in eval mode. A module with dropout or batch normalisation would give different outputs there; the model's `EpochEntries` gives every epoch the same metric values.
- tqdm progress bars and `set_postfix`, and pandas `DataFrame` construction. Fit returns the two lists of dictionaries the frames are built from.
- `tqdm.write` output. The written line is recorded as a string. The digits of `{:.2%}` and `{:.2f}` come from a rendering function parameter, because float formatting is not modelled.
- DataLoader iteration order and shuffling: the loaders are sequences of batches, read in order. An empty batch is excluded by the `Batch` type, since `inputs[0]` and `inputs[-1]` need one.
- Callbacks are recorded with the dictionary they receive. A callback that mutates that dictionary is not modelled.
- `calculate_metrics` returning `None`: the hook returns items, so always a dictionary.
- Metric values are reals. Only the integer `epoch` and `iteration` tags are converted to reals.
- `BaseTrainable.parameters` and `build_network` are abstract. StandardClassifier's `build_network` is modelled by `Trainable.Init` adding the `classifier` member, or failing its assertion.
- tests/testTransforms.py exercises dataset classes that are not part of this model.

## Findings

| source | as written | input that shows it | evidently intended | confidence | as-written member | corrected member |
|---|---|---|---|---|---|---|
| dn3/transforms/basic.py:112-113 | the pad vector has one entry per sample of the trial (`range(2, x.shape[-1])`), and torch's pad accepts at most two pairs for a 2-D trial | a one-channel trial of 5 samples gives a 5-entry pad vector, which is refused; so is every trial of 3 or more than 4 samples | pad only the sample dimension, by `[start_padding, end_padding]` | high, not executed | `Transforms.FiveSampleTrialRefused` | `Transforms.TemporalPadding.IntendedCall` |
| layers.py:12-21 | `compute_output_signature` inserts the 1 at `ax + 1`, while `call` uses `tf.expand_dims(inputs, axis)`, which inserts at `axis` | axis 0 on signature (2, 3): the signature is (2, 1, 3), the output (1, 2, 3) | a signature matching the shape `call` produces | medium, not executed | `Layers.ExpandSignatureMisplacesAxisZero` | `Layers.ExpandDimsThenSqueeze` |
| dn3/trainable/trainable.py:30-35 | the members to move are the members before `build_network` minus those after it, which is always empty | StandardClassifier: `classifier` is added and is never moved to the device | the members `build_network` added (after minus before) | high, not executed | `Trainable.ClassifierNeverMoved` | `Trainable.NewMembersHoldClassifier` |

`Layers.AxisLayer.ComputeOutputSignature` and `Trainable.Init` keep the code as written, because those are the behaviour being modelled. The corrected definitions (`Layers.ExpandDimsShape`, `Trainable.NewMembers`) sit beside them with their properties proved. `Transforms.PaddingHooksDescribeCall` relates the hooks to the corrected padding.
