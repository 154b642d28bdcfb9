# tacred-bert training bookkeeping, in Dafny

`train.py` of tacred-bert fine-tunes a BERT relation classifier on TACRED. Around the
PyTorch calls, its `train()` function keeps a small amount of sequential bookkeeping, and
this project models that bookkeeping and proves what it does:

- **Label map** (`labels.dfy`, module `LabelMap`). `id2label` is built by inverting
  `LABEL_TO_ID`. A Python dict with ordered items is modelled as its sequence of pairs.
  `dict(pairs)` lets a later pair win.
- **Device move** (`device.dfy`, module `Device`). Each batch is a list of five optional
  tensors, updated in place by the loop that moves every present slot to the device. It is
  an `array<Option<T>>` with an abstract `to` function. The method returns the value the
  loop leaves in its loop variable `i`.
- **Step counting** (`steps.dfy`, module `Steps`). This covers the accumulation factor
  `64 // batch_size`, the accumulation test that decides when `optimizer.step()` runs, and
  the `log_step` cadence of the progress lines.
- **Checkpoints** (`checkpoints.dfy`, module `Checkpoints`). Two functions of the dev-F1
  history describe the files: which epoch's snapshot `best_model.pt` holds, and which
  `ckpt_epoch_{epoch}.pt` files remain on disk.
- **Dev predictions** (`evaluation.dfy`, module `Evaluation`). The dev loop moves each
  batch and concatenates the per-batch argmax ids in loader order. It then maps them
  through `id2label`.
- **The training controller** (`training.dfy`, module `Training`). The class
  `TrainingRun` holds:
  - the step counters: `global_step`, and the calls to the optimizer, the scheduler and
    `zero_grad`;
  - the printed log steps;
  - the files on disk and the best-file pointer;
  - the three history lists.

  Its methods are one training batch, one epoch's batch loop, the end-of-epoch checkpoint
  step and the epoch loop. `Train` runs it from construction to the last epoch.

The source's `i` at line 177 is the variable that the device-move loop at line 152
rebinds. It is not the batch index. The model therefore carries the accumulation rule as
a parameter (`Steps.TriggerRule`):

- `AsWritten` is the code as written.
- `PerBatch` is the evident intent, `(batch_index + 1) % grad_acc_steps == 0`.

Every property of the run is proved for both rules (see "## Findings").

Two points where the model follows the code rather than a rounder reading of it:

- **Accumulation factor.** Line 81 rounds down (`64 // batch_size`), which is 0 for
  batch sizes above 64; it does not round up to `ceil(64 / batch_size)`.
- **Optimizer steps per epoch.** Accumulating gradients over `A = grad_acc_steps`
  batches means one optimizer step after every `A`-th batch, so `floor(B / A)` steps per
  epoch of `B` batches. The intended rule `(batch_index + 1) % A == 0` gives exactly that
  (`Steps.PerBatchEpochSteps`). As written, an epoch steps on all of its batches or on
  none of them (`Steps.AsWrittenEpochSteps`).

## Model

| member | source | states |
|---|---|---|
| LabelMap.LabelToId | train.py:69 | `LABEL_TO_ID` as a dict built from its item list; its inverse relation to `id2label` is stated by `Id2LabelInvertsLabelToId` and `LabelToIdInvertsId2Label` |
| LabelMap.Swapped | train.py:69 | `[(v, k) for k, v in LABEL_TO_ID.items()]` has one pair per item, in item order, each item's components swapped |
| LabelMap.DictOf | train.py:69 | `dict(pairs)` has exactly the first components as keys, and every entry is one of the pairs |
| LabelMap.DictOfLastWins | train.py:69 | in `dict(pairs)` a key maps to the value of its last pair |
| LabelMap.DictOfSize | train.py:69 | with distinct keys, the dict has one entry per pair |
| LabelMap.Id2Label | train.py:69 | `id2label`'s keys are exactly the ids of `LABEL_TO_ID`, and each entry comes from a (label, id) item |
| LabelMap.Id2LabelInvertsLabelToId | train.py:69 | with distinct labels and ids, `id2label[LABEL_TO_ID[k]] == k` for every label `k` |
| LabelMap.LabelToIdInvertsId2Label | train.py:69 | with distinct labels, `LABEL_TO_ID[id2label[v]] == v` for every id `v` |
| LabelMap.NumLabelsAgree | train.py:69 | with distinct labels and ids, `id2label`, `LABEL_TO_ID` and the item list have the same size (`num_labels`) |
| Device.MoveSlot | train.py:152-154 | one slot of the move loop: a `None` slot is skipped, a present tensor is replaced by its moved copy (slot by slot in `MovedAt`) |
| Device.Moved | train.py:152-154 | the batch after the whole move loop, every slot moved; its length, absent slots and moved slots are stated by `MovedAt`, and `MoveToDevice` is proved to produce it |
| Device.MovedAt | train.py:152-154 | the moved batch has the same length; a `None` slot stays `None`; a present slot holds its value moved to the device |
| Device.MoveToDevice | train.py:152-154 | the array now holds the moved batch; the loop variable ends at `len(batch) - 1`, or keeps its old value for an empty batch |
| Steps.GradAccSteps | train.py:81 | `64 // batch_size` is the largest `a` with `a * batch_size <= 64`; it is at least 1 exactly when `batch_size <= 64` |
| Steps.Fires | train.py:177 | the accumulation test `(i + 1) % grad_acc_steps == 0`, read with the rebound loop variable (`AsWritten`) or with the batch index (`PerBatch`); its epoch counts are stated by `AsWrittenEpochSteps` and `PerBatchEpochSteps` |
| Steps.EpochOptSteps | train.py:148-177 | the number of batches of an epoch on which the accumulation test holds; closed forms in `AsWrittenEpochSteps` and `PerBatchEpochSteps`, and `TrainEpoch` is proved to step this often |
| Steps.AsWrittenEpochSteps | train.py:148-177 | as written, an epoch of `b` batches steps the optimizer `b` times if `5 % grad_acc_steps == 0`, else never |
| Steps.PerBatchEpochSteps | train.py:148-177 | with the batch index as intended, an epoch of `b` batches steps the optimizer `b / grad_acc_steps` times (floor) |
| Steps.AsWrittenNeverStepsAtBatchSize32 | train.py:177 | at batch size 32 the factor is 2; as written the optimizer never steps, while the intended rule steps `b / 2` times |
| Steps.AsWrittenStepsOnlyFor | train.py:177 | for batch sizes 1..64, as written the optimizer steps at all only for sizes 11, 12 and 33..64 |
| Steps.LogPoints | train.py:169 | the global steps at which a progress line is printed during the first `n` steps; characterised by `LogPointsExactly` |
| Steps.LogPointsExactly | train.py:169 | progress lines are printed exactly at the global steps divisible by `log_step`, once each, in increasing order |
| Checkpoints.Max | train.py:234 | `max(list_dev_f1)` is an element of the list and at least every element |
| Checkpoints.BestEpoch | train.py:234-235 | this run's best file exists exactly when some epoch has finished, and it holds one of the finished epochs |
| Checkpoints.BestEpochIsFirstMax | train.py:234-235 | the best file holds an epoch whose F1 is at least every epoch's, and strictly above every earlier epoch's (ties keep the earlier epoch) |
| Checkpoints.BestEpochUnique | train.py:234-235 | conversely, the first epoch reaching the maximum F1 is the one the best file holds |
| Checkpoints.KeptEpochs | train.py:232-238 | the `ckpt_epoch_{epoch}.pt` files on disk after `n` epochs, each epoch writing its file and removing it unless `epoch % save_epoch == 0`; characterised by `KeptEpochsExactly` |
| Checkpoints.KeptEpochsExactly | train.py:232-238 | after `n` epochs, the per-epoch files this run leaves on disk are exactly those of the epochs in `1..n` that are multiples of `save_epoch` |
| Evaluation.Flatten | train.py:213 | `predictions += preds` over a run of batches: the per-batch id lists concatenated in loader order; its lengths and order are stated by `FlattenLength`, `FlattenAt` and `FlattenAppend` |
| Evaluation.Predict | train.py:211 | one argmax id list per dev batch, in loader order (one list per batch) |
| Evaluation.FlattenAppend | train.py:213 | `predictions += preds` over two runs of batches concatenates their concatenations, and their total lengths add up |
| Evaluation.FlattenLength | train.py:213 | the concatenated predictions have one id per predicted example |
| Evaluation.FlattenAt | train.py:213 | order is kept: id `k` of batch `j` sits after all ids of the earlier batches |
| Evaluation.LookupAll | train.py:215 | mapping through `id2label` succeeds exactly when every id has a label (otherwise `KeyError`), and then gives the labels of the ids, in order |
| Evaluation.PredictAppend | train.py:211-213 | predicting one more batch appends that batch's argmax ids |
| Evaluation.CollectPredictions | train.py:193-215 | every dev batch is moved in place, and the result is the loader-ordered concatenation of the per-batch argmax ids, mapped through `id2label` |
| Training.TrainingRun.constructor | train.py:132-142 | a new run starts with `grad_acc_steps = 64 // batch_size`, zero counters, no files, no best file and empty histories |
| Training.TrainingRun.TrainBatch | train.py:150-184 | moves the batch; logs iff `global_step % log_step == 0`; steps the optimizer iff the accumulation test holds, with a scheduler step (if present) and `zero_grad` each time; `global_step` rises by 1; the counter invariant is kept |
| Training.TrainingRun.TrainEpoch | train.py:148-184 | an epoch of `b` batches raises `global_step` by `b` and the optimizer steps by the epoch count of the rule, keeping the counter invariant; every batch list of the loader (distinct lists) ends up moved to the device |
| Training.TrainingRun.EndEpoch | train.py:232-245 | the best file moves to this epoch iff it is the first or strictly beats the earlier maximum; the epoch's file stays iff `epoch % save_epoch == 0`; each history grows by one entry; the file invariant is kept |
| Training.TrainingRun.RunEpoch | train.py:145-245 | one epoch: the training pass, then the checkpoint and history bookkeeping; every batch list of the epoch ends up moved to the device |
| Training.TrainingRun.NextEpoch | train.py:145-245 | one turn of the epoch loop: from the state after `e` epochs (counters are the per-epoch counts added up, histories are the first `e` results, the batches of the first `e` epochs moved and the rest untouched) to the same state after `e + 1` epochs |
| Training.TrainingRun.RunEpochs | train.py:145-245 | after the epoch loop, `global_step` and the optimizer steps are the per-epoch counts added up over the epochs, the histories are the per-epoch results in order, and every batch list of every epoch has been moved to the device exactly once |
| Training.TotalIsProduct | train.py:130 | adding up `e` epochs of `n` steps gives `e * n` |
| Training.Train | train.py:130-245 | after the run, the run's configuration is that of the arguments (`grad_acc_steps == 64 // batch_size`, `log_step`, `save_epoch`, whether there is a scheduler, the accumulation rule); every batch list of every epoch has been moved to the device once; `global_step == len(train_loader) * num_epoch == train_steps`; the optimizer stepped `num_epoch` times the per-epoch count; the histories are the per-epoch results; the files on disk are those of the multiples of `save_epoch`; the best file holds the first epoch with the maximum dev F1 |

The counter invariant of `TrainingRun` (`StepsValid`) states these facts:

- there are as many `zero_grad` calls as optimizer steps;
- the scheduler steps exactly as often as the optimizer when there is a scheduler, and
  never otherwise;
- the printed steps are `LogPoints(global_step, log_step)`;
- as written, the optimizer step count is either `global_step` or 0.

Its file invariant (`EpochsValid`) ties the files and the best pointer to
`KeptEpochs` and `BestEpoch` of the dev-F1 history.

## Left out

- The model forward pass, `CrossEntropyLoss`, `loss.backward()` and the optimizer and
  scheduler internals (lines 132-134, 158-166, 175) are opaque library calls. The
  optimizer and scheduler appear only as counters of their calls.
- Loss accumulation and normalisation (lines 183, 214, 223-224) are floating-point tensor
  arithmetic. The per-epoch train and dev losses are inputs to `EndEpoch` and `Train`.
- `torch.argmax` over the logits (line 211) is an uninterpreted function from a moved
  batch to its class ids. The model state it depends on is not tracked.
- The scorer `dev_loader.dataset.eval` (lines 217-220) is not part of this model.
  - Train: each epoch's dev F1 is an input; `Train` does not connect it to
    `CollectPredictions`, because the predictions depend on model weights that are not
    modelled.
- Argument parsing, printing, timing and format strings, `FileLogger`, config saving and
  plotting (lines 23-63, 123-127, 137-138, 170-173, 188, 227-229, 236, 240, 246) are I/O
  and presentation. Progress lines are modelled only as the list of global steps at which
  one is printed.
- Seeding, device selection and the construction of the tokenizer, model and data loaders
  (lines 67, 75, 84-98, 117-120) are library setup. A loader is the sequence of batches
  it yields in one pass.
- The real file contents are not modelled. The file system is the set of epochs whose
  `ckpt_epoch_{epoch}.pt` exists, plus the epoch whose snapshot `best_model.pt` holds.
  - `torch.save`, `copyfile` and `os.remove` are updates to that state.
  - Write failures are not modelled.
  - `files` and `bestEpoch` count only the files this run writes. The model assumes a
    fresh save directory: nothing at lines 117-123 empties `model_save_dir`, and `--name`
    defaults to `test` (line 36), so an earlier run's `ckpt_epoch_*.pt` files and
    `best_model.pt` may already be on disk. They stay there, and the file invariant,
    `KeptEpochsExactly` and `BestEpoch` do not describe them.
- The final print at line 248 is not modelled. With `num_epoch < 1` it raises
  `UnboundLocalError`.
- Crashes are replaced by preconditions:
  - `ZeroDivisionError` at lines 81, 169, 177 and 237 becomes `batch_size > 0`, plus
    `log_step != 0` and `grad_acc_steps != 0` whenever a training batch runs, plus
    `save_epoch != 0` whenever an epoch ends.
  - The unpacking `ValueError` at lines 155 and 200 becomes the requirement that every
    batch has five slots.
  - The `KeyError` at line 215 is modelled (`LookupAll` returns `None`).
- Batch sizes below 1 are excluded by `batch_size > 0`, although line 81 accepts a
  negative one (Python gives `64 // -3 == -22`; Dafny's `/` would give -21). The model
  presumes the data loader rejects such a batch size before training starts.
- The `ZeroDivisionError` of lines 223-224 on an empty training or dev dataset
  (`len(train_loader.dataset) == 0`) is not modelled, as loss normalisation is left out.
- The loader yields a fresh list for every batch, so the model requires the batch arrays
  of all epochs to be distinct; moving one batch then never changes another.
- NaN and other floating-point comparisons of the dev F1 are not modelled. F1 values are
  reals, and only their order matters.
- Train: all epochs have the same number of batches (`len(train_loader)`), and the dev
  loop of each epoch is summarised by its results. `Evaluation.CollectPredictions` models
  one dev pass on its own.

## Findings

| source | as written | input that shows it | evidently intended | confidence | as-written member | corrected member |
|---|---|---|---|---|---|---|
| train.py:177 | `(i + 1) % grad_acc_steps == 0` reads the `i` rebound by the device-move loop at line 152, which is always 4 for a five-field batch. Every batch of an epoch steps the optimizer if `5 % grad_acc_steps == 0`, and no batch does otherwise. | `--batch_size 32`: `grad_acc_steps == 2` and `5 % 2 == 1`, so `optimizer.step()`, `scheduler.step()` and `zero_grad()` never run and gradients accumulate without bound | `(batch_index + 1) % grad_acc_steps == 0` with the `enumerate` index of line 148, which gives `floor(B / grad_acc_steps)` optimizer steps per epoch of `B` batches | high (proved on the model; not executed) | Steps.AsWrittenNeverStepsAtBatchSize32 | Steps.PerBatchEpochSteps |
