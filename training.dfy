/**
 * The training controller of train.py:130-245: the epoch loop, the batch loop
 * with its counters, and the per-epoch checkpoint and history bookkeeping.
 *
 * The model, the loss and the optimizer's arithmetic are opaque; the
 * optimizer and scheduler are represented only by how often they are called.
 * The file system is the set of epochs whose `ckpt_epoch_{epoch}.pt` exists,
 * plus the epoch whose snapshot `best_model.pt` holds.
 */
module Training {
  import opened Wrappers
  import opened Device
  import opened Steps
  import opened Checkpoints

  class TrainingRun {
    /** `grad_acc_steps` (line 81). */
    const accSteps: int
    /** `log_step`, `save_epoch` and whether `get_scheduler` returned a scheduler. */
    const logStep: int
    const saveEpoch: int
    const hasScheduler: bool
    /** Which counter the accumulation test reads (see `Steps.TriggerRule`). */
    const rule: TriggerRule

    /** `global_step` (lines 136, 184). */
    var globalStep: nat
    /** Calls of `optimizer.step()`, `scheduler.step()` and `optimizer.zero_grad()`. */
    var optSteps: nat
    var schedSteps: nat
    var zeroGrads: nat
    /** The global steps at which a progress line was printed (line 169). */
    var logged: seq<nat>
    /** The epochs whose per-epoch checkpoint file is on disk. */
    var files: set<nat>
    /** The epoch whose snapshot `best_model.pt` holds, if it exists. */
    var bestEpoch: Option<nat>
    /** `list_train_loss`, `list_dev_loss`, `list_dev_f1`. */
    var trainLossHistory: seq<real>
    var devLossHistory: seq<real>
    var devF1History: seq<real>

    /** The counters of the batch loop agree with the calls the source makes. */
    ghost predicate StepsValid()
      reads this`globalStep, this`optSteps, this`schedSteps, this`zeroGrads, this`logged
    {
      // a batch ran only if neither modulus divided by zero
      && (globalStep > 0 ==> logStep != 0 && accSteps != 0)
      && logged == LogPoints(globalStep, logStep)
      // as many zero_grad calls (and scheduler steps, if any) as optimizer steps
      && zeroGrads == optSteps
      && schedSteps == (if hasScheduler then optSteps else 0)
      // as written, the optimizer steps on every batch or on none
      && (rule == AsWritten && accSteps != 0 ==>
            optSteps == if BatchFields % accSteps == 0 then globalStep else 0)
    }

    /** The files on disk, the best file and the histories agree with the epochs finished. */
    ghost predicate EpochsValid()
      reads this`files, this`bestEpoch, this`trainLossHistory, this`devLossHistory, this`devF1History
    {
      && |trainLossHistory| == |devLossHistory| == |devF1History|
      // an epoch ended only if line 237 did not divide by zero
      && (|devF1History| > 0 ==> saveEpoch != 0)
      && files == KeptEpochs(|devF1History|, saveEpoch)
      && bestEpoch == BestEpoch(devF1History)
    }

    ghost predicate Valid()
      reads this
    {
      StepsValid() && EpochsValid()
    }

    /** The state before the first epoch (lines 81, 132-142). */
    constructor (batchSize: int, logStep: int, saveEpoch: int, hasScheduler: bool, rule: TriggerRule)
      requires batchSize > 0
      ensures Valid()
      ensures accSteps == GradAccSteps(batchSize)
      ensures this.logStep == logStep && this.saveEpoch == saveEpoch
      ensures this.hasScheduler == hasScheduler && this.rule == rule
      ensures globalStep == optSteps == schedSteps == zeroGrads == 0 && logged == []
      ensures files == {} && bestEpoch == None
      ensures trainLossHistory == devLossHistory == devF1History == []
    {
      accSteps := GradAccSteps(batchSize);
      this.logStep := logStep;
      this.saveEpoch := saveEpoch;
      this.hasScheduler := hasScheduler;
      this.rule := rule;
      globalStep, optSteps, schedSteps, zeroGrads := 0, 0, 0, 0;
      logged := [];
      files := {};
      bestEpoch := None;
      trainLossHistory, devLossHistory, devF1History := [], [], [];
    }

    /**
     * One training batch (lines 150-184): move the batch, print a progress line
     * if `global_step % log_step == 0`, step the optimizer (and scheduler) and
     * clear the gradients if the accumulation test holds, count the step.
     */
    method TrainBatch<T>(batchIndex: nat, batch: array<Option<T>>, to: T -> T)
      requires StepsValid()
      requires batch.Length == BatchFields
      requires logStep != 0 && accSteps != 0
      modifies this`globalStep, this`optSteps, this`schedSteps, this`zeroGrads, this`logged, batch
      ensures StepsValid()
      ensures batch[..] == Moved(old(batch[..]), to)
      ensures globalStep == old(globalStep) + 1
      ensures logged == old(logged) + if old(globalStep) % logStep == 0 then [old(globalStep)] else []
      ensures optSteps == old(optSteps) + if Fires(rule, accSteps, batchIndex, BatchFields - 1) then 1 else 0
    {
      // line 152 rebinds the enumerate index `i`
      var i := MoveToDevice(batch, to, batchIndex);
      if globalStep % logStep == 0 {
        logged := logged + [globalStep];
      }
      if Fires(rule, accSteps, batchIndex, i) {
        optSteps := optSteps + 1;
        if hasScheduler {
          schedSteps := schedSteps + 1;
        }
        zeroGrads := zeroGrads + 1;
      }
      globalStep := globalStep + 1;
    }

    /** The batch loop of one epoch (lines 148-184). */
    method TrainEpoch<T>(loader: seq<array<Option<T>>>, to: T -> T)
      requires StepsValid()
      requires forall j :: 0 <= j < |loader| ==> loader[j].Length == BatchFields
      requires forall j, k :: 0 <= j < k < |loader| ==> loader[j] != loader[k]
      requires |loader| > 0 ==> logStep != 0 && accSteps != 0
      modifies this`globalStep, this`optSteps, this`schedSteps, this`zeroGrads, this`logged, loader
      ensures StepsValid()
      ensures forall j :: 0 <= j < |loader| ==> loader[j][..] == Moved(old(loader[j][..]), to)
      ensures globalStep == old(globalStep) + |loader|
      ensures optSteps == old(optSteps) + EpochOptSteps(rule, accSteps, |loader|)
    {
      var i := 0;
      while i < |loader|
        invariant 0 <= i <= |loader|
        invariant StepsValid()
        invariant forall j :: 0 <= j < i ==> loader[j][..] == Moved(old(loader[j][..]), to)
        invariant forall j :: i <= j < |loader| ==> loader[j][..] == old(loader[j][..])
        invariant globalStep == old(globalStep) + i
        invariant optSteps == old(optSteps) + EpochOptSteps(rule, accSteps, i)
      {
        assert forall j :: 0 <= j < |loader| && j != i ==> loader[j] != loader[i];
        TrainBatch(i, loader[i], to);
        i := i + 1;
      }
    }

    /**
     * The end of an epoch (lines 232-245): save `ckpt_epoch_{epoch}`, copy it to
     * the best file if it is the first epoch or beats every earlier F1, remove it
     * unless `epoch % save_epoch == 0`, then append to the three histories.
     */
    method EndEpoch(trainLoss: real, devLoss: real, devF1: real)
      requires EpochsValid()
      requires saveEpoch != 0
      modifies this`files, this`bestEpoch, this`trainLossHistory, this`devLossHistory, this`devF1History
      ensures EpochsValid()
      ensures trainLossHistory == old(trainLossHistory) + [trainLoss]
      ensures devLossHistory == old(devLossHistory) + [devLoss]
      ensures devF1History == old(devF1History) + [devF1]
      ensures bestEpoch ==
        if old(devF1History) == [] || devF1 > Max(old(devF1History)) then Some(old(|devF1History|) + 1)
        else old(bestEpoch)
      ensures files == (old(files) + {old(|devF1History|) + 1}) -
        if (old(|devF1History|) + 1) % saveEpoch != 0 then {old(|devF1History|) + 1} else {}
    {
      var h := devF1History;
      var epoch := |h| + 1;
      BestEpochStep(h, devF1);
      KeptEpochsStep(|h|, saveEpoch);
      // torch.save
      var onDisk := files + {epoch};
      if |h| == 0 || devF1 > Max(h) {
        // copyfile: best_model.pt is a separate file, so the removal below leaves it alone
        bestEpoch := Some(epoch);
      }
      if epoch % saveEpoch != 0 {
        onDisk := onDisk - {epoch};
      }
      files := onDisk;
      trainLossHistory, devLossHistory := trainLossHistory + [trainLoss], devLossHistory + [devLoss];
      devF1History := h + [devF1];
    }

    /**
     * One iteration of the epoch loop (lines 145-245): the training pass, then
     * the checkpoint and history bookkeeping with the dev pass's results.
     */
    method RunEpoch<T>(loader: seq<array<Option<T>>>, to: T -> T, trainLoss: real, devLoss: real, devF1: real)
      requires Valid()
      requires forall j :: 0 <= j < |loader| ==> loader[j].Length == BatchFields
      requires forall j, k :: 0 <= j < k < |loader| ==> loader[j] != loader[k]
      requires |loader| > 0 ==> logStep != 0 && accSteps != 0
      requires saveEpoch != 0
      modifies this, loader
      ensures Valid()
      ensures forall j :: 0 <= j < |loader| ==> loader[j][..] == Moved(old(loader[j][..]), to)
      ensures globalStep == old(globalStep) + |loader|
      ensures optSteps == old(optSteps) + EpochOptSteps(rule, accSteps, |loader|)
      ensures trainLossHistory == old(trainLossHistory) + [trainLoss]
      ensures devLossHistory == old(devLossHistory) + [devLoss]
      ensures devF1History == old(devF1History) + [devF1]
    {
      TrainEpoch(loader, to);
      EndEpoch(trainLoss, devLoss, devF1);
    }

    /** The state after the first `e` epochs of the inputs. */
    ghost predicate Ran(e: nat, numBatches: nat, perEpoch: nat, trainLosses: seq<real>, devLosses: seq<real>, devF1s: seq<real>)
      reads this
    {
      e <= |trainLosses| && e <= |devLosses| && e <= |devF1s| &&
      Valid() && globalStep == Total(numBatches, e) && optSteps == Total(perEpoch, e) &&
      trainLossHistory == trainLosses[..e] && devLossHistory == devLosses[..e] && devF1History == devF1s[..e]
    }

    /**
     * The epoch loop (lines 145-245) over `|trainLoaders|` epochs of
     * `numBatches` batches each, from a run that has not trained yet.
     */
    method RunEpochs<T>(
      numBatches: nat, trainLoaders: seq<seq<array<Option<T>>>>, to: T -> T,
      trainLosses: seq<real>, devLosses: seq<real>, devF1s: seq<real>)
      requires Valid()
      requires globalStep == 0 && optSteps == 0
      requires trainLossHistory == [] && devLossHistory == [] && devF1History == []
      requires |trainLosses| == |devLosses| == |devF1s| == |trainLoaders|
      requires forall e :: 0 <= e < |trainLoaders| ==> |trainLoaders[e]| == numBatches
      requires forall e, j :: 0 <= e < |trainLoaders| && 0 <= j < |trainLoaders[e]| ==>
        trainLoaders[e][j].Length == BatchFields
      requires DistinctBatches(trainLoaders)
      requires numBatches > 0 && |trainLoaders| > 0 ==> logStep != 0 && accSteps != 0
      requires |trainLoaders| > 0 ==> saveEpoch != 0
      modifies this
      modifies set e, j | 0 <= e < |trainLoaders| && 0 <= j < |trainLoaders[e]| :: trainLoaders[e][j]
      ensures Valid()
      ensures forall e, j :: 0 <= e < |trainLoaders| && 0 <= j < |trainLoaders[e]| ==>
        trainLoaders[e][j][..] == Moved(old(trainLoaders[e][j][..]), to)
      ensures globalStep == Total(numBatches, |trainLoaders|)
      ensures optSteps == Total(if |trainLoaders| == 0 then 0 else EpochOptSteps(rule, accSteps, numBatches), |trainLoaders|)
      ensures trainLossHistory == trainLosses && devLossHistory == devLosses && devF1History == devF1s
    {
      ghost var perEpoch := if |trainLoaders| == 0 then 0 else EpochOptSteps(rule, accSteps, numBatches);
      ghost var before := Snapshot(trainLoaders);
      SnapshotUnmoved(trainLoaders, to);
      var e := 0;
      while e < |trainLoaders|
        invariant 0 <= e <= |trainLoaders|
        invariant Ran(e, numBatches, perEpoch, trainLosses, devLosses, devF1s)
        invariant MovedUpTo(trainLoaders, before, e, to)
      {
        DistinctEpoch(trainLoaders, e);
        NextEpoch(e, numBatches, perEpoch, trainLoaders, to, trainLosses, devLosses, devF1s, before);
        e := e + 1;
      }
      AllMoved(trainLoaders, before, to);
      WholePrefix(trainLosses);
      WholePrefix(devLosses);
      WholePrefix(devF1s);
    }

    /** Epoch `e + 1` of the loop in `RunEpochs`: the state moves from `e` finished epochs to `e + 1`. */
    method NextEpoch<T>(
      e: nat, numBatches: nat, ghost perEpoch: nat, trainLoaders: seq<seq<array<Option<T>>>>, to: T -> T,
      trainLosses: seq<real>, devLosses: seq<real>, devF1s: seq<real>, ghost before: seq<seq<seq<Option<T>>>>)
      requires e < |trainLoaders| == |trainLosses| == |devLosses| == |devF1s|
      requires Ran(e, numBatches, perEpoch, trainLosses, devLosses, devF1s)
      requires MovedUpTo(trainLoaders, before, e, to)
      requires |trainLoaders[e]| == numBatches
      requires numBatches > 0 ==> logStep != 0 && accSteps != 0
      requires perEpoch == EpochOptSteps(rule, accSteps, numBatches)
      requires forall j :: 0 <= j < |trainLoaders[e]| ==> trainLoaders[e][j].Length == BatchFields
      requires forall j, k :: 0 <= j < k < |trainLoaders[e]| ==> trainLoaders[e][j] != trainLoaders[e][k]
      requires forall f, j :: 0 <= f < |trainLoaders| && f != e && 0 <= j < |trainLoaders[f]| ==> trainLoaders[f][j] !in trainLoaders[e]
      requires saveEpoch != 0
      modifies this, trainLoaders[e]
      ensures Ran(e + 1, numBatches, perEpoch, trainLosses, devLosses, devF1s)
      ensures MovedUpTo(trainLoaders, before, e + 1, to)
    {
      RunEpoch(trainLoaders[e], to, trainLosses[e], devLosses[e], devF1s[e]);
      PrefixStep(trainLosses, e);
      PrefixStep(devLosses, e);
      PrefixStep(devF1s, e);
    }
  }

  /**
   * The whole run (lines 81-245) over `|trainLoaders|` epochs, each with
   * `len(train_loader)` batches. The dev pass of each epoch is summarised by
   * its losses and F1, which the external scorer computes from the model state
   * this model does not track (see `Evaluation.CollectPredictions` for one pass).
   */
  method Train<T>(
    batchSize: int, logStep: int, saveEpoch: int, hasScheduler: bool, rule: TriggerRule,
    numBatches: nat, trainLoaders: seq<seq<array<Option<T>>>>, to: T -> T,
    trainLosses: seq<real>, devLosses: seq<real>, devF1s: seq<real>)
    returns (run: TrainingRun)
    requires batchSize > 0
    requires |trainLosses| == |devLosses| == |devF1s| == |trainLoaders|
    requires forall e :: 0 <= e < |trainLoaders| ==> |trainLoaders[e]| == numBatches
    requires forall e, j :: 0 <= e < |trainLoaders| && 0 <= j < |trainLoaders[e]| ==>
      trainLoaders[e][j].Length == BatchFields
    requires DistinctBatches(trainLoaders)
    requires numBatches > 0 && |trainLoaders| > 0 ==> logStep != 0 && GradAccSteps(batchSize) != 0
    requires |trainLoaders| > 0 ==> saveEpoch != 0
    modifies set e, j | 0 <= e < |trainLoaders| && 0 <= j < |trainLoaders[e]| :: trainLoaders[e][j]
    ensures fresh(run) && run.Valid()
    ensures run.accSteps == GradAccSteps(batchSize) && run.logStep == logStep && run.saveEpoch == saveEpoch
    ensures run.hasScheduler == hasScheduler && run.rule == rule
    ensures forall e, j :: 0 <= e < |trainLoaders| && 0 <= j < |trainLoaders[e]| ==>
      trainLoaders[e][j][..] == Moved(old(trainLoaders[e][j][..]), to)
    ensures run.globalStep == numBatches * |trainLoaders|
    ensures run.optSteps == if |trainLoaders| == 0 then 0 else |trainLoaders| * EpochOptSteps(rule, run.accSteps, numBatches)
    ensures run.trainLossHistory == trainLosses && run.devLossHistory == devLosses
    ensures run.devF1History == devF1s
    ensures run.files == KeptEpochs(|trainLoaders|, saveEpoch)
    ensures run.bestEpoch == BestEpoch(devF1s)
  {
    run := new TrainingRun(batchSize, logStep, saveEpoch, hasScheduler, rule);
    run.RunEpochs(numBatches, trainLoaders, to, trainLosses, devLosses, devF1s);
    TotalIsProduct(numBatches, |trainLoaders|);
    if |trainLoaders| > 0 {
      TotalIsProduct(EpochOptSteps(rule, run.accSteps, numBatches), |trainLoaders|);
    } else {
      TotalIsProduct(0, 0);
    }
  }

  /**
   * Every batch of every epoch is a list of its own: the loader builds a fresh
   * list for each batch it yields.
   */
  ghost predicate DistinctBatches<T>(loaders: seq<seq<array<Option<T>>>>)
  {
    forall e, j, f, k ::
      0 <= e < |loaders| && 0 <= j < |loaders[e]| && 0 <= f < |loaders| && 0 <= k < |loaders[f]| && (e, j) != (f, k) ==>
        loaders[e][j] != loaders[f][k]
  }

  /** The contents of every batch of every epoch. */
  ghost function Snapshot<T>(loaders: seq<seq<array<Option<T>>>>): (s: seq<seq<seq<Option<T>>>>)
    reads set e, j | 0 <= e < |loaders| && 0 <= j < |loaders[e]| :: loaders[e][j]
    ensures |s| == |loaders|
    ensures forall e :: 0 <= e < |loaders| ==> s[e] == Contents(loaders[e])
  {
    if loaders == [] then []
    else
      var init := loaders[..|loaders| - 1];
      assert forall e, j :: 0 <= e < |init| && 0 <= j < |init[e]| ==> init[e][j] == loaders[e][j];
      Snapshot(init) + [Contents(loaders[|loaders| - 1])]
  }

  /**
   * The batches of the first `e` epochs have been moved to the device, and
   * those of the later epochs still hold what they held at the start.
   */
  ghost predicate MovedUpTo<T>(loaders: seq<seq<array<Option<T>>>>, before: seq<seq<seq<Option<T>>>>, e: nat, to: T -> T)
    reads set f, j | 0 <= f < |loaders| && 0 <= j < |loaders[f]| :: loaders[f][j]
  {
    && |before| == |loaders|
    && (forall f :: 0 <= f < |loaders| ==> |before[f]| == |loaders[f]|)
    && forall f, j :: 0 <= f < |loaders| && 0 <= j < |loaders[f]| ==>
         loaders[f][j][..] == if f < e then Moved(before[f][j], to) else before[f][j]
  }

  /** The batches of one epoch are distinct, and none of them is a batch of another epoch. */
  lemma DistinctEpoch<T>(loaders: seq<seq<array<Option<T>>>>, e: nat)
    requires DistinctBatches(loaders) && e < |loaders|
    ensures forall j, k :: 0 <= j < k < |loaders[e]| ==> loaders[e][j] != loaders[e][k]
    ensures forall f, j :: 0 <= f < |loaders| && f != e && 0 <= j < |loaders[f]| ==> loaders[f][j] !in loaders[e]
  {
  }

  /** Before the first epoch, every batch holds what the snapshot recorded. */
  lemma SnapshotUnmoved<T>(loaders: seq<seq<array<Option<T>>>>, to: T -> T)
    ensures MovedUpTo(loaders, Snapshot(loaders), 0, to)
  {
  }

  /** The history after one more epoch is the next longer prefix of the inputs. */
  lemma PrefixStep<X>(s: seq<X>, e: nat)
    requires e < |s|
    ensures s[..e + 1] == s[..e] + [s[e]]
  {
  }

  /** After the last epoch every batch of every epoch has been moved. */
  lemma AllMoved<T>(loaders: seq<seq<array<Option<T>>>>, before: seq<seq<seq<Option<T>>>>, to: T -> T)
    requires MovedUpTo(loaders, before, |loaders|, to)
    ensures forall e, j :: 0 <= e < |loaders| && 0 <= j < |loaders[e]| ==> loaders[e][j][..] == Moved(before[e][j], to)
  {
  }

  /** After the last epoch the history is the whole input. */
  lemma WholePrefix<X>(s: seq<X>)
    ensures s[..|s|] == s
  {
  }

  /** `e` epochs of `n` each, added up one epoch at a time as the loop over epochs does. */
  function Total(n: nat, e: nat): nat
  {
    if e == 0 then 0 else Total(n, e - 1) + n
  }

  lemma {:induction false} TotalIsProduct(n: nat, e: nat)
    ensures Total(n, e) == e * n
  {
    if e > 0 {
      TotalIsProduct(n, e - 1);
    }
  }

}
