# DCLS training control core in Dafny

This project models the control core of the DCLS blind super-resolution trainer.
It covers two parts of the original repository.

**The training script** (`codes/config/DCLS/train.py`, `main`):
- It sizes the run with nested ceiling divisions.
- It runs an epoch loop and a batch loop over a step counter. The counter is bumped before every batch and the loop breaks once it passes `total_iters`.
- Every `val_freq` steps, on rank -1 or 0, it validates. It averages the per-image PSNR over the validation set, each image cropped by `scale` pixels on every border.
- It keeps a best record that moves only on a strict improvement.
- After each validation it either accepts the live weights into the snapshot `prev_state_dict` (average above 20) or rolls the live weights back to that snapshot.
- It writes a checkpoint only when the most recent average is above 26.
- It saves the final model on rank -1 or 0.

**The model wrapper** (`codes/config/DCLS/models/blind_model.py`, `B_Model`):
- It dispatches the loss and scheduler names.
- It splits the network parameters into a "Restorer" and an "Estimator" optimizer group.
- `feed_data` overwrites the input fields.
- A training step logs two losses and performs zero_grad, backward and step.
- It switches between train and eval mode around inference.
- It runs the eight-way flip/transpose self-ensemble (`test_x8`).

The network, the data loaders, the losses and the metric are opaque. Weights are a type parameter `W`. One training step is a function `train(step, w)`. Inference over the validation set is `infer(w)`, which yields pairs of images. The metric is a real-valued function `psnr`. Reals are exact.

Modules:
- `Common`: `Option`, `Result`, the Python exceptions the core raises, Python's substring test, and the shape of an image plane.
- `Crop`: Python slice semantics and the border crop `img[c:-c, c:-c]`.
- `Sizing`: `train_size` and `total_epochs`.
- `Rollback`: the loop as pure functions over an explicit state.
  - `Body` is one batch after the counter test.
  - `Batches` is the batch loop.
  - `Epochs` is the epoch loop.
  - `Run` is the whole script.
  - History functions (`BestOf`, `LastAvg`, `Replay` of `Pending` steps, `TrainedSteps`) say what the state must be, given the events so far.
- `RunProperties`: lemmas about `Rollback`, in particular the invariant `Coherent` and the relation `Progress` that every stretch of the loop keeps.
- `Training`: the loop as it runs.
  - A `Trainer` object holds `current_step`, the best record, `avg_psnr`, the live weights and the snapshot, and its methods update them in place through nested `while` loops.
  - Each method is proved to reach exactly the state, and raise exactly the exception, that `Rollback` prescribes.
- `Augment`: planes, the three transforms, the ensemble inputs and the inverse chain.
- `BlindModel`: the configuration dispatch, the parameter partition, the ordered loss log and the `Model` class.

Python semantics are written out where they matter:
- `x % 0` raises ZeroDivisionError, and so do `avg_psnr / 0` and `ceil(a / 0)`.
- `avg_psnr` is unbound until the first validation. The checkpoint test reads it only on a step divisible by `save_checkpoint_freq` and on rank -1 or 0, because `and` short-circuits, and only then raises UnboundLocalError.
- `s[c:-c]` with `c == 0` is empty.
- Reading an attribute that `feed_data` or inference never set raises AttributeError.
- Dafny's `%` is Euclidean while Python's floors. The two agree on whether a remainder is zero, which is the only way the loop uses `%`.

Behaviour of the script that the model keeps:
- The snapshot is copied from the live weights before the first step (train.py:236). A rejection before any accept therefore restores the starting or resumed weights.
- The best record starts at (0.0, 0) (train.py:233-234). A first validation of 18.0 becomes the best even though it is rejected.
- An unknown `lr_scheme` adds no scheduler and raises nothing (blind_model.py:98-122). Only an unknown `pixel_criterion` raises (blind_model.py:54-64).
- A trainable parameter that matches neither tag is left out of both groups without a warning (blind_model.py:73-85). Only parameters with `requires_grad` false are warned about, and only on rank -1 or 0.
- `pixel_weight` is read but never applied (blind_model.py:68). The backpropagated total is the plain sum of the two losses.
- Validation and rollback run on rank -1 as well as rank 0 (train.py:272, the test `rank <= 0`).

## Model

| member | source | states |
|---|---|---|
| Common.Contains | codes/config/DCLS/models/blind_model.py:79-81 | definition of `t in s` on strings; its property is Common.ContainsAt |
| Common.ContainsAt | codes/config/DCLS/models/blind_model.py:79-81 | Python's `t in s` on strings holds exactly when `t` occurs at some position of `s` |
| Crop.Slice | codes/config/DCLS/train.py:321-322 | definition of `s[i:j]` through two normalised bounds; its properties are Crop.Bound, Crop.BorderCrop and Crop.CropInterior |
| Crop.Bound | codes/config/DCLS/train.py:321-322 | a slice bound is clamped into `[0, n]`: an in-range index is kept, a negative one counts from the end, one above `n` becomes `n` and one below `-n` becomes `0` |
| Crop.BorderCrop | codes/config/DCLS/train.py:318-322 | a zero margin yields the empty image; otherwise the crop has `2c` fewer rows (none if the image is too small) and row `k` is row `k + c` sliced by `[c:-c]` |
| Crop.CropInterior | codes/config/DCLS/train.py:318-322 | on a rectangular image with a positive margin, the crop is rectangular, `2c` narrower, and its pixel `(k, l)` is pixel `(k + c, l + c)` of the input |
| Sizing.CeilDiv | codes/config/DCLS/train.py:167-169 | `ceil(a / b)` raises exactly when `b == 0`; otherwise it is the least `q` with `a <= q * b` (for `b > 0`), with the mirrored bounds for `b < 0` |
| Sizing.EpochPlan | codes/config/DCLS/train.py:163-176 | for a positive batch size: it fails exactly on an empty training set; `train_size` is the ceiling of `len / batch_size`; `total_epochs` is the ceiling of `total_iters / train_size`, with the divisor 200 times larger when distributed |
| Rollback.Start | codes/config/DCLS/train.py:216-236 | definition of the state before the epoch loop: counter at the resumed `iter`, best (0.0, 0), `avg_psnr` unbound, snapshot equal to the live weights, empty history; its properties are Training.Trainer.constructor and RunProperties.RunFacts |
| Rollback.Average | codes/config/DCLS/train.py:273-335 | the average raises ZeroDivisionError exactly on an empty validation set |
| Rollback.Scores | codes/config/DCLS/train.py:318-333 | one score per validation pair, in loader order; score `i` is the metric of pair `i` with both images border-cropped by `scale` |
| Rollback.AverageBetween | codes/config/DCLS/train.py:330-335 | if every image scores above `t`, the average is above `t`; if none does, the average is at most `t` |
| Rollback.Validate | codes/config/DCLS/train.py:337-359 | the best record never decreases and ends at least at the new average; `avg_psnr` is the new average; the snapshot becomes the live weights when the average is above 20 and is kept otherwise; live and snapshot are equal afterwards (accept keeps live, reject restores the snapshot); one validation event is logged |
| Rollback.RejectTwice | codes/config/DCLS/train.py:353-359 | two rejections with no accept between leave the live weights at the same snapshot both times, and the snapshot unchanged |
| Rollback.BestRecordExample | codes/config/DCLS/train.py:337-339 | on averages 18.0, 22.0, 19.5, 24.0 at steps 5, 10, 15, 20, the rejected 18.0 first becomes the best, followed by (22.0, 10) twice and then (24.0, 20); exactly 22.0 and 24.0 are accepted |
| Rollback.SaveStage | codes/config/DCLS/train.py:366-370 | only the event log may change. It raises ZeroDivisionError exactly when the frequency is 0, and UnboundLocalError exactly when a due checkpoint on rank ≤ 0 finds no validation yet. A checkpoint is logged exactly when it is due, rank ≤ 0, and the last average is above 26 |
| Rollback.ValidationDue | codes/config/DCLS/train.py:272 | definition of the validation test `current_step % val_freq == 0 and rank <= 0`; its properties are RunProperties.ValidationRule and RunProperties.BodyStage |
| Rollback.Body | codes/config/DCLS/train.py:245-370 | definition of one batch after the counter test: train, the print and validation frequency tests, validation with accept or rollback, the checkpoint test; its properties are RunProperties.BodyStage, RunProperties.BodyCounts, RunProperties.ValidationRule and RunProperties.ZeroFrequency |
| Rollback.Batches | codes/config/DCLS/train.py:240-244 | definition of the batch loop: bump the counter, break once it passes `total_iters`, otherwise run the body and stop at the first exception; its properties are RunProperties.BatchesKeep, RunProperties.BatchesCounter and RunProperties.BatchesTrained |
| Rollback.Epochs | codes/config/DCLS/train.py:237-244 | definition of the epoch loop over `start_epoch .. total_epochs`, stopping at the first exception; its properties are RunProperties.EpochsKeep, RunProperties.EpochsCount and RunProperties.ExhaustedEpochs |
| Rollback.RunFrom | codes/config/DCLS/train.py:237-375 | definition of the epoch loop followed by the final save on rank ≤ 0; its properties are RunProperties.RunFromKeeps and RunProperties.RunFromTrains |
| Rollback.Run | codes/config/DCLS/train.py:216-375 | definition of the whole script from the start state; its properties are RunProperties.RunFacts, RunProperties.RunTrains and RunProperties.PlannedRunTrains |
| RunProperties.BestOfIsFirstMaximum | codes/config/DCLS/train.py:233-234 | the best record determined by a history is non-negative; it is (0.0, 0) until an average exceeds 0.0; no average exceeds it; and otherwise it is the first average to reach that maximum, with its step |
| RunProperties.ProgressTrans | codes/config/DCLS/train.py:237-370 | the loop-wide guarantees compose across consecutive stretches: the history only grows; step and best PSNR never decrease; the snapshot is unchanged if nothing was accepted; every checkpoint is justified |
| RunProperties.TrainStage | codes/config/DCLS/train.py:245-254 | a training step keeps the state coherent with its history and logs exactly this step as trained |
| RunProperties.ValidateStage | codes/config/DCLS/train.py:337-359 | a validation keeps the state coherent (best record, `avg_psnr`, live = snapshot trained on the pending steps) and is a progress step |
| RunProperties.SaveStageFacts | codes/config/DCLS/train.py:366-370 | the checkpoint test keeps coherence, logs only justified checkpoints and trains nothing |
| RunProperties.BodyStage | codes/config/DCLS/train.py:245-370 | one batch, error or not, keeps the state coherent and is a progress step |
| RunProperties.BodyCounts | codes/config/DCLS/train.py:241-254 | one batch leaves the counter where it found it and trains exactly the current step once |
| RunProperties.ValidationRule | codes/config/DCLS/train.py:272-359 | when no validation is due, a batch logs no validation; when one is due, an empty validation set raises ZeroDivisionError; otherwise the batch logs the validation of the cropped-metric average, marked accepted exactly when it is above 20 |
| RunProperties.ZeroFrequency | codes/config/DCLS/train.py:256-272 | a `print_freq` or `val_freq` of 0 raises ZeroDivisionError on every rank, after the batch was trained and with nothing else changed |
| RunProperties.PassKeepsCoherent | codes/config/DCLS/train.py:245-370 | the batch body keeps coherence from every state |
| RunProperties.PassTrainsOnce | codes/config/DCLS/train.py:241-254 | from every state, the batch body keeps the counter and logs that step as trained |
| RunProperties.BumpStage | codes/config/DCLS/train.py:241 | bumping the counter keeps coherence and is a progress step |
| RunProperties.BatchesKeep | codes/config/DCLS/train.py:240-244 | the batch loop keeps coherence and progress, whatever body keeps coherence |
| RunProperties.BatchesCounter | codes/config/DCLS/train.py:240-244 | an epoch of `k` batches started at counter `c` that ends without error leaves the counter at `c + k` when that is within `total_iters`, and otherwise at `max(c, total_iters) + 1`, since the bump that passes `total_iters` happens before the break |
| RunProperties.BatchesTrained | codes/config/DCLS/train.py:240-254 | an epoch that ends without error has trained exactly the steps `c + 1 .. min(c + k, total_iters)`, in order |
| RunProperties.EpochPassKeepsCoherent | codes/config/DCLS/train.py:240-370 | the epoch body keeps coherence from every state |
| RunProperties.EpochPassTrains | codes/config/DCLS/train.py:240-254 | from every state, the epoch body ends at the computed counter and trains the computed range of steps |
| RunProperties.EpochPassIdle | codes/config/DCLS/train.py:240-244 | with a non-empty loader, an epoch started at or past `total_iters` only bumps the counter by one and trains nothing |
| RunProperties.EpochsKeep | codes/config/DCLS/train.py:237 | the epoch loop keeps coherence and progress |
| RunProperties.EpochsCount | codes/config/DCLS/train.py:237-244 | an epoch loop that ends without error has trained exactly the steps `c + 1 .. min(c + epochs × k, total_iters)` |
| RunProperties.ExhaustedEpochs | codes/config/DCLS/train.py:237-244 | once the counter is at or past `total_iters`, each remaining epoch still bumps it once, and nothing else changes |
| RunProperties.SavedLatestKeeps | codes/config/DCLS/train.py:372-375 | the final save keeps coherence and progress and trains nothing |
| RunProperties.RunFromKeeps | codes/config/DCLS/train.py:237-375 | the whole loop plus the final save, from any coherent state, keeps coherence and progress |
| RunProperties.RunFromTrains | codes/config/DCLS/train.py:237-375 | the whole loop without error trains exactly the steps after the start counter, up to `min(start + epochs × k, total_iters)` |
| RunProperties.RunFacts | codes/config/DCLS/train.py:233-375 | after any run, error or not, the state is coherent with its history: best record, `avg_psnr`, and live weights equal to the snapshot trained on the steps since the last validation. If nothing was ever accepted, the snapshot is still the initial weights. Every checkpoint was written on rank ≤ 0, on a due step, after a last average above 26 |
| RunProperties.RunTrains | codes/config/DCLS/train.py:216-254 | a run that ends without error trained exactly the steps `iter + 1 .. min(iter + epochs × batches, total_iters)`, in order |
| RunProperties.PlannedRunTrains | codes/config/DCLS/train.py:163-176 | a fresh non-distributed run sized by the epoch plan, assuming the loader yields `train_size` batches per epoch, always gets a plan and, when it ends without error, trains exactly the steps `1 .. total_iters`, in order |
| Training.AveragePsnr | codes/config/DCLS/train.py:273-335 | the accumulating loop over the validation set returns exactly the average of the cropped per-image metrics, or ZeroDivisionError on an empty set |
| Training.Trainer.constructor | codes/config/DCLS/train.py:216-236 | the counter starts at the given (0 or resumed) iteration, the best record at (0.0, 0), `avg_psnr` unbound, and the snapshot equal to the live weights |
| Training.Trainer.Validate | codes/config/DCLS/train.py:337-359 | the fields are updated in place to exactly the state `Rollback.Validate` prescribes |
| Training.Trainer.SaveCheckpoint | codes/config/DCLS/train.py:366-370 | new state and exception are those of `Rollback.SaveStage` |
| Training.Trainer.Pass | codes/config/DCLS/train.py:245-370 | one batch in place: new state and exception are those of `Rollback.Body` |
| Training.Trainer.Epoch | codes/config/DCLS/train.py:240-370 | the inner loop with its break and early exit on an exception reaches the state and exception of `Rollback.Batches` |
| Training.Trainer.Train | codes/config/DCLS/train.py:237-375 | the nested loops and the final save reach the state and exception of `Rollback.RunFrom` |
| Training.Launch | codes/config/DCLS/train.py:216-375 | a fresh or resumed trainer run to the end yields exactly `Rollback.Run`, so every `RunProperties` lemma about `Run` holds of it |
| Augment.FlipV | codes/config/DCLS/models/blind_model.py:194-195 | the shape is kept and pixel `(k, l)` comes from `(k, width - 1 - l)` |
| Augment.FlipH | codes/config/DCLS/models/blind_model.py:196-197 | the shape is kept and pixel `(k, l)` comes from `(height - 1 - k, l)` |
| Augment.Transpose | codes/config/DCLS/models/blind_model.py:198-199 | height and width swap and pixel `(k, l)` comes from `(l, k)` |
| Augment.FlipVInvolution | codes/config/DCLS/models/blind_model.py:194-195 | flipping the columns twice is the identity |
| Augment.FlipHInvolution | codes/config/DCLS/models/blind_model.py:196-197 | flipping the rows twice is the identity |
| Augment.TransposeInvolution | codes/config/DCLS/models/blind_model.py:198-199 | transposing twice is the identity |
| Augment.Transform | codes/config/DCLS/models/blind_model.py:191-204 | `_transform` succeeds exactly for "v", "h", "t", with the matching transform; any other op raises UnboundLocalError for `tfnp` |
| Augment.Stage | codes/config/DCLS/models/blind_model.py:206-208 | definition of the input list after `n` extend rounds over "v", "h", "t"; its properties are Augment.StageBits and Augment.Augmentations |
| Augment.Augmented | codes/config/DCLS/models/blind_model.py:206-208 | definition of ensemble input `i` by the bits of `i`; its properties are Augment.StageBits, Augment.RoundTrip and Augment.RoundTripBack |
| Augment.Deaugmented | codes/config/DCLS/models/blind_model.py:211-217 | definition of the inverse chain applied to output `i`; its properties are Augment.RoundTrip, Augment.RoundTripBack and Augment.Restore |
| Augment.Ensemble | codes/config/DCLS/models/blind_model.py:209-217 | the eight restored outputs of the network, one per input variant; its property is Augment.EquivariantEnsemble |
| Augment.StageBits | codes/config/DCLS/models/blind_model.py:206-208 | after the three rounds the input list has 8 entries and entry `i` is `t^b2(h^b1(v^b0(x)))` for the bits of `i` |
| Augment.RoundTrip | codes/config/DCLS/models/blind_model.py:211-217 | the inverse chain for `i` undoes augmentation `i`, for every `i < 8` |
| Augment.RoundTripBack | codes/config/DCLS/models/blind_model.py:211-217 | augmentation `i` undoes the inverse chain for `i` |
| Augment.EquivariantRestores | codes/config/DCLS/models/blind_model.py:210-217 | for a network that commutes with the three transforms, restored output `i` is the network's output on the plain input |
| Augment.EquivariantEnsemble | codes/config/DCLS/models/blind_model.py:210-220 | for such a network the eight averaged planes are all equal to its plain output |
| Augment.Augmentations | codes/config/DCLS/models/blind_model.py:206-208 | the list-extending loop yields the eight variants, entry `i` selected by the bits of `i` |
| Augment.Restore | codes/config/DCLS/models/blind_model.py:211-217 | the in-place loop maps each output `i` through its inverse chain |
| BlindModel.PixelCriterion | codes/config/DCLS/models/blind_model.py:55-65 | succeeds exactly for "l1", "l2", "cb"; anything else raises NotImplementedError with the source's message |
| BlindModel.CriterionRoundTrip | codes/config/DCLS/models/blind_model.py:55-61 | every criterion is selected by its name |
| BlindModel.CriterionNamed | codes/config/DCLS/models/blind_model.py:55-61 | a string that selects a criterion is that criterion's name |
| BlindModel.CriterionName | codes/config/DCLS/models/blind_model.py:55-60 | definition of the configuration name of each criterion; its properties are BlindModel.CriterionRoundTrip and BlindModel.CriterionNamed |
| BlindModel.GroupOf | codes/config/DCLS/models/blind_model.py:77-85 | definition of where one named parameter goes, following the `if`/`elif` order; its properties are BlindModel.SelectPartition and BlindModel.BothTagsGoToRestorer |
| BlindModel.Warning | codes/config/DCLS/models/blind_model.py:85 | definition of the message for one frozen parameter; its property is BlindModel.Warnings |
| BlindModel.Select | codes/config/DCLS/models/blind_model.py:74-82 | every parameter selected for a group belongs to that group, and there are no more than the parameters given |
| BlindModel.Warnings | codes/config/DCLS/models/blind_model.py:83-85 | on rank ≤ 0, warning `k` is "Params [name] will not optimize." for the `k`-th frozen parameter, one per frozen parameter; none on other ranks |
| BlindModel.SelectAppend | codes/config/DCLS/models/blind_model.py:74-82 | selecting from a concatenation is the concatenation of the selections, so each group keeps the original order |
| BlindModel.SelectPartition | codes/config/DCLS/models/blind_model.py:74-85 | the restorer, estimator, frozen and untagged selections together are exactly the parameters as a multiset, so the two optimizer groups are disjoint and nothing is duplicated |
| BlindModel.SelectCount | codes/config/DCLS/models/blind_model.py:74-85 | the four group sizes add up to the number of parameters |
| BlindModel.BothTagsGoToRestorer | codes/config/DCLS/models/blind_model.py:78-82 | a trainable parameter whose name contains both tags is in the restorer group, and no estimator parameter has its name |
| BlindModel.SplitParameters | codes/config/DCLS/models/blind_model.py:72-85 | the loop yields the restorer values, the estimator values and the warnings as the selections define them |
| BlindModel.WeightDecay | codes/config/DCLS/models/blind_model.py:71 | the configured value when there is one (a zero gives zero either way), and 0 when it is None |
| BlindModel.SchedulerFor | codes/config/DCLS/models/blind_model.py:98-122 | a scheduler kind exactly for "MultiStepLR" (the step-restart kind) and "CosineAnnealingLR_Restart"; otherwise none, without an error |
| BlindModel.AttachSchedulers | codes/config/DCLS/models/blind_model.py:98-122 | for a known scheme, one scheduler per optimizer is appended in optimizer order after the existing ones; for an unknown scheme, the list is unchanged |
| BlindModel.Configure | codes/config/DCLS/models/blind_model.py:49-124 | raises exactly when the criterion is unknown. Otherwise: the Adam optimizer has exactly two groups, restorer with `lr_G` then estimator with `lr_E`; it has the truthiness-filtered weight decay and the betas; it is the only optimizer; it has one scheduler for a known scheme and none otherwise; the warnings are those for the frozen parameters |
| BlindModel.Get | codes/config/DCLS/models/blind_model.py:166-167 | definition of an ordered-dict lookup, None for an absent key; its properties are BlindModel.PutGet and BlindModel.PutOther |
| BlindModel.Put | codes/config/DCLS/models/blind_model.py:166-167 | definition of an ordered-dict write: replace in place or append a new key; its properties are BlindModel.PutGet, BlindModel.PutOther and BlindModel.PutKeys |
| BlindModel.PutGet | codes/config/DCLS/models/blind_model.py:166-167 | reading back a key just written to the ordered dict gives the written value |
| BlindModel.PutOther | codes/config/DCLS/models/blind_model.py:166-167 | writing a key leaves every other key's value unchanged |
| BlindModel.PutKeys | codes/config/DCLS/models/blind_model.py:166-167 | writing keeps the key order; a new key is appended last |
| BlindModel.StepLog | codes/config/DCLS/models/blind_model.py:166-167 | after the two writes, `l_pix` and `l_ker` read back the two losses and the keys are exactly ["l_pix", "l_ker"] |
| BlindModel.Overwrite | codes/config/DCLS/models/blind_model.py:145-154 | a given argument overwrites the field, an absent one keeps it |
| BlindModel.OverwriteIdempotent | codes/config/DCLS/models/blind_model.py:145-154 | feeding the same arguments twice is the same as feeding them once |
| BlindModel.Model.constructor | codes/config/DCLS/models/blind_model.py:49-124 | the trained model starts in train mode with an empty log and no input or output attributes |
| BlindModel.Model.FeedData | codes/config/DCLS/models/blind_model.py:143-154 | `var_L` is always replaced; each optional field is replaced only when its argument is given; nothing else changes |
| BlindModel.Model.OptimizeParameters | codes/config/DCLS/models/blind_model.py:157-175 | raises AttributeError for the first missing attribute in the order `var_L`, `lr_blured`, `lr`, `real_H`, after storing the forward outputs. On success: `l_pix` is the pixel loss and `l_ker` the kernel loss, the log keys are exactly those two in order, and the update trace is zero_grad, backward of their plain sum, step; the log invariant is kept |
| BlindModel.Model.Test | codes/config/DCLS/models/blind_model.py:178-185 | on success the network's outputs are stored and the model is back in train mode; without an input, AttributeError is raised and the model stays in eval mode; nothing else changes |
| BlindModel.Model.TestX8 | codes/config/DCLS/models/blind_model.py:187-221 | on success `fake_H` is the mean of the eight restored ensemble outputs, the model is back in train mode, and `fake_SR` is untouched; without an input it raises and stays in eval mode |
| BlindModel.Model.CurrentLog | codes/config/DCLS/models/blind_model.py:223-224 | the log holds no keys or exactly ["l_pix", "l_ker"] |
| BlindModel.Model.CurrentVisuals | codes/config/DCLS/models/blind_model.py:226-235 | succeeds exactly when input, output, target and kernel are all present, returning them; otherwise AttributeError naming the first one missing in the read order `var_L`, `fake_SR`, `real_H`, `fake_ker` |

## Left out

- I/O is not modelled: logging, tensorboard, printing, image saving, `mkdir`, and the contents of checkpoint files. A checkpoint and the final save are events in the run's history. `tb_logger.close()` at train.py:376 is not modelled. `tb_logger` is bound only at train.py:152, on rank ≤ 0 with `use_tb_logger` set and no "debug" in the name, so in every other configuration line 376 raises UnboundLocalError. A `Run` that ends with no error describes the state just before line 376.
- Option parsing, `init_dist`, resume-state loading and `resume_training` are not modelled. The resumed epoch and iteration are inputs.
- The distributed sampler, world size and DataParallel wrapping are not modelled. The rank is a configuration value.
- The data loader is modelled only as the number of batches per epoch. `Run` gives every epoch the same number of batches.
- `SRMDPreprocessing`, the LR quantisation at train.py:246, `update_learning_rate` and `get_current_visuals` inside the loop are folded into one opaque training step `train(step, w)`.
- Validation inference (`feed_data`, `test`, `tensor2img`) is the opaque `infer(w)`.
- The PSNR metric and `bgr2ycbcr` are the opaque real function `psnr`, because they are floating-point numerics.
- The learning-rate scheduler internals, `base_model.py` and `networks.py` are not part of this model. The scheduler arguments (`lr_steps`, `restarts`, `restart_weights`, `lr_gamma`, `clear_state`, `T_period`, `eta_min`) are passed through and not represented.
- The network forward pass, `CorrectionLoss`, the pixel losses and Adam's arithmetic are opaque functions. `OptimizeParameters` records the order of the optimizer calls and does not change the weights. The weights are modelled on the training-script side.
- `init_model`, `load`, `save`, `print_network` and the `is_train == false` branch of `__init__` are not modelled. The model class describes a model built for training.
- PlannedRunTrains: assumes the training loader yields `train_size = ceil(len / batch_size)` batches per epoch, the number the script logs at train.py:170-175. `create_dataloader` (train.py:179) is not part of this model; with `drop_last` an epoch would yield one batch fewer.
- The `Model` constructor takes the pixel loss as an opaque function. It is not tied to the criterion that `Configure` selects from `pixel_criterion` (blind_model.py:54-65), so the constructor and `Configure` describe `__init__` separately.
- The options are a dictionary that reads a missing key as None (train.py:53-54). Missing options are not modelled: every option is assumed present, except that `weight_decay_G` may be None. A missing `pixel_criterion` would reach the message format at blind_model.py:64 and raise TypeError, and a missing `lr_scheme` would select no scheduler.
- A rollback reloads only the network weights (train.py:359). Adam's moment buffers, the scheduler state and the step counter carry on. The opaque `train(step, w)` can depend on them only through its step argument.
- Tensors are one rectangular plane each; the batch and channel axes, which the flips and the transpose leave alone, are not represented. The ensemble mean (`torch.cat(...).mean`) is an opaque function of the eight restored planes.
- Floating-point rounding is not modelled. Averages and losses are exact reals, and `ceil(a / b)` is computed exactly on integers.
- The best record is not carried over on resume; the model starts it at (0.0, 0), as the script does.
