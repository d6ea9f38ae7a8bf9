/**
 * The training-loop bookkeeping of dn3/trainable/trainable.py, for a
 * StandardClassifier (BaseTrainable with StandardClassifier's network,
 * forward, loss, train_step, evaluate and fit).
 *
 * The classifier, the loss and calculate_metrics are function-valued
 * constants; tensors are identified by numbers. Every call the trainer makes
 * into the framework (train mode, forward pass, loss, zero_grad, backward,
 * optimizer and scheduler steps, metric calculation, callbacks and
 * tqdm.write) is appended to the trace `calls`, so that the order and the
 * number of those calls can be stated; what the step and epoch callbacks
 * receive and the lines tqdm.write prints are kept in their own fields.
 */
module Trainable {
  import opened Wrappers
  import Text
  import opened MetricDicts

  /** One batch from a DataLoader: the list of its tensors (at least one). */
  type Batch = b: seq<nat> | |b| > 0 witness [0]

  /** What the classifier is applied to: `inputs[0]` of a batch, or (in evaluate) the whole batch list. */
  datatype Arg = Tensor(id: nat) | TensorList(ids: seq<nat>)

  /** The `cuda` argument of __init__: a bool, a device string, or anything else. */
  datatype CudaArg = CudaFlag(flag: bool) | CudaDevice(name: string) | CudaOther

  datatype TrainError =
    | MetricFailure(cause: MetricError)  // update_metrics raised during validation
    | AssertionError                     // a `cuda` that is neither bool nor str, or no classifier

  /** A call the trainer makes into the framework or the caller's code. */
  datatype Call =
    | TrainMode(on: bool)
    | Forward(arg: Arg)
    | CalcLoss(value: real)
    | ZeroGrad
    | Backward
    | OptimizerStep
    | SchedulerStep
    | CalcMetrics
    | StepCallback
    | EpochCallback
    | Write

  /** The learning rate torch.optim.Adam starts with when none is given. */
  const AdamDefaultLr: real := 0.001

  // ---------------------------------------------------------------------------
  // BaseTrainable.__init__
  // ---------------------------------------------------------------------------

  /** The device string: a bool picks "cuda" or "cpu", a string is kept, anything else fails the assertion. */
  function DeviceName(cuda: CudaArg): (r: Result<string, TrainError>)
    ensures r.Failure? <==> cuda.CudaOther?
    ensures r.Failure? ==> r.error == AssertionError
    ensures cuda.CudaFlag? ==> r.value == (if cuda.flag then "cuda" else "cpu")
    ensures cuda.CudaDevice? ==> r.value == cuda.name
  {
    match cuda
    case CudaFlag(flag) => Success(if flag then "cuda" else "cpu")
    case CudaDevice(name) => Success(name)
    case CudaOther => Failure(AssertionError)
  }

  /** The instance dictionary's keys when build_network is called: `cuda`, `device`, `scheduler`. */
  const MembersBeforeBuild: set<string> := {"cuda", "device", "scheduler"}

  /** The members __init__ moves to the device, computed as the members before build_network minus those after it. */
  function MovedMembers(before: set<string>, after: set<string>): (r: set<string>)
    ensures forall m :: m in r <==> m in before && m !in after
  {
    before - after
  }

  /** The members build_network evidently means to move: those it added. */
  function NewMembers(before: set<string>, after: set<string>): (r: set<string>)
    ensures forall m :: m in r <==> m in after && m !in before
  {
    after - before
  }

  /** Whatever build_network adds, the moved set as computed holds none of it. */
  lemma MovedMembersMissAdditions(before: set<string>, added: set<string>)
    ensures forall m :: m in added && m !in before ==> m !in MovedMembers(before, before + added)
    ensures MovedMembers(before, before + added) == {}
  {
  }

  /** StandardClassifier.build_network adds `classifier`, and nothing is moved to the device. */
  lemma ClassifierNeverMoved()
    ensures "classifier" !in MovedMembers(MembersBeforeBuild, MembersBeforeBuild + {"classifier"})
    ensures MovedMembers(MembersBeforeBuild, MembersBeforeBuild + {"classifier"}) == {}
  {
    MovedMembersMissAdditions(MembersBeforeBuild, {"classifier"});
  }

  /** With the added members as the moved set, the classifier is the one member moved. */
  lemma NewMembersHoldClassifier()
    ensures NewMembers(MembersBeforeBuild, MembersBeforeBuild + {"classifier"}) == {"classifier"}
  {
    assert "classifier" !in MembersBeforeBuild;
  }

  // ---------------------------------------------------------------------------
  // The trainer
  // ---------------------------------------------------------------------------

  class StandardClassifier<O> {
    /** The wrapped torch module, as a function of what it is applied to (the same in train and eval mode). */
    const classifier: Arg -> O
    /** `self.loss(outputs, target).item()`. */
    const loss: (O, nat) -> real
    /** calculate_metrics(inputs, outputs): the items of the dict it returns, in order. */
    const metrics: (seq<nat>, O) -> seq<(string, real)>
    const device: string
    const hasScheduler: bool
    /** `optimizer.param_groups[0]['lr']`; fit never steps the scheduler, and what TrainStep's scheduler step does to it is not modelled. */
    const lr: real
    /** The keys of the instance dictionary after __init__. */
    const members: set<string>
    /** The members __init__ moved to the device. */
    const moved: set<string>
    /** The classifier's training flag (`classifier.train(mode)`). */
    var training: bool
    /** Every framework call made so far, oldest first. */
    var calls: seq<Call>
    /** The dicts the step callback has received, oldest first. */
    var stepArgs: seq<Metrics>
    /** The dicts the epoch callback has received, oldest first. */
    var epochArgs: seq<Metrics>
    /** The lines tqdm.write has printed. */
    var written: seq<string>

    constructor(classifier: Arg -> O, loss: (O, nat) -> real, metrics: (seq<nat>, O) -> seq<(string, real)>, device: string,
                hasScheduler: bool, lr: real, members: set<string>, moved: set<string>, training: bool)
      ensures this.classifier == classifier && this.loss == loss && this.metrics == metrics
      ensures this.device == device && this.hasScheduler == hasScheduler && this.lr == lr
      ensures this.members == members && this.moved == moved
      ensures this.training == training
      ensures calls == [] && stepArgs == [] && epochArgs == [] && written == []
    {
      this.classifier := classifier;
      this.loss := loss;
      this.metrics := metrics;
      this.device := device;
      this.hasScheduler := hasScheduler;
      this.lr := lr;
      this.members := members;
      this.moved := moved;
      this.training := training;
      calls := [];
      stepArgs := [];
      epochArgs := [];
      written := [];
    }

    /** BaseTrainable.train_step after StandardClassifier's `train(True)`. */
    method TrainStep(batch: Batch) returns (r: Metrics)
      modifies this`training, this`calls
      ensures r == StepMetrics(this, batch)
      ensures training
      ensures calls == old(calls) + TrainStepCalls(this, batch)
    {
      training := true;
      calls := calls + [TrainMode(true)];
      var outputs := classifier(Tensor(batch[0]));
      calls := calls + [Forward(Tensor(batch[0]))];
      var lossValue := loss(outputs, batch[|batch| - 1]);
      calls := calls + [CalcLoss(lossValue)];
      calls := calls + [ZeroGrad, Backward];
      calls := calls + [OptimizerStep];
      ghost var stepped := [TrainMode(true), Forward(Tensor(batch[0])), CalcLoss(lossValue), ZeroGrad, Backward, OptimizerStep];
      assert calls == old(calls) + stepped;
      if hasScheduler {
        calls := calls + [SchedulerStep];
      }
      AppendAssoc(old(calls), stepped, if hasScheduler then [SchedulerStep] else []);
      r := FromItems(metrics(batch, outputs));
      calls := calls + [CalcMetrics];
      AppendAssoc(old(calls), stepped + (if hasScheduler then [SchedulerStep] else []), [CalcMetrics]);
    }

    /**
     * StandardClassifier.evaluate: eval mode, then for each batch a forward
     * pass on the whole batch list and update_metrics, stopping at the first
     * batch whose metrics the accumulator cannot take.
     */
    method Evaluate(loader: seq<Batch>) returns (r: Result<Metrics, MetricError>)
      modifies this`training, this`calls
      ensures r == Validated(this, loader)
      ensures !training
      ensures calls == old(calls) + [TrainMode(false)] + EvalTrace(this, loader, BatchesSeen(EvalMetrics(this, loader)))
    {
      training := false;
      calls := calls + [TrainMode(false)];
      ghost var ms := EvalMetrics(this, loader);
      var accumulated := Empty;
      for i := 0 to |loader|
        invariant !training
        invariant Accumulate(ms[..i]) == Success(accumulated)
        invariant calls == old(calls) + [TrainMode(false)] + EvalTrace(this, loader, i)
      {
        var batchMetrics := EvalBatch(loader[i]);
        AppendAssoc(old(calls) + [TrainMode(false)], EvalTrace(this, loader, i), [Forward(TensorList(loader[i])), CalcMetrics]);
        var updated := UpdateMetricsInPlace(accumulated, batchMetrics, i + 1);
        AccumulateStep(ms, i);
        if updated.Failure? {
          BatchesSeenAt(ms, i + 1);
          return Failure(updated.error);
        }
        accumulated := updated.value;
      }
      assert ms[..|loader|] == ms;
      BatchesSeenAll(ms);
      r := Success(accumulated);
    }

    /** One batch of evaluate's loop: a forward pass on the batch list, then calculate_metrics. */
    method EvalBatch(batch: Batch) returns (m: Metrics)
      modifies this`calls
      ensures m == BatchMetrics(this, batch) && WellFormed(m)
      ensures calls == old(calls) + [Forward(TensorList(batch)), CalcMetrics]
    {
      var outputs := classifier(TensorList(batch));
      m := FromItems(metrics(batch, outputs));
      FromItemsWellFormed(metrics(batch, outputs));
      calls := calls + [Forward(TensorList(batch)), CalcMetrics];
    }

    /** One step of fit's inner loop: forward, loss, backward, metrics, the log entry, and the step callback if set. */
    method FitStep(inputs: Batch, epoch: nat, iteration: nat, stepCallback: bool) returns (trainMetrics: Metrics)
      modifies this`calls, this`stepArgs
      ensures trainMetrics == TrainEntry(this, inputs, epoch, iteration)
      ensures stepCallback ==> calls == old(calls) + StepCalls(this, inputs) + [StepCallback]
      ensures stepCallback ==> stepArgs == old(stepArgs) + [trainMetrics]
      ensures !stepCallback ==> calls == old(calls) + StepCalls(this, inputs) && stepArgs == old(stepArgs)
    {
      var outputs := classifier(Tensor(inputs[0]));
      var lossValue := loss(outputs, inputs[|inputs| - 1]);
      trainMetrics := FromItems(metrics(inputs, outputs));
      trainMetrics := SetDefault(trainMetrics, "loss", lossValue);
      trainMetrics := PutAll(trainMetrics, [("epoch", epoch as real), ("iteration", iteration as real), ("lr", lr)]);
      calls := calls + [Forward(Tensor(inputs[0])), CalcLoss(lossValue), ZeroGrad, Backward, CalcMetrics];
      if stepCallback {
        calls := calls + [StepCallback];
        stepArgs := stepArgs + [trainMetrics];
      }
    }

    /** One epoch of fit's inner loop, over the batches in order, iterations counted from 1. */
    method TrainEpoch(train: seq<Batch>, epoch: nat, stepCallback: bool) returns (entries: seq<Metrics>)
      modifies this`calls, this`stepArgs
      ensures entries == EpochEntries(this, train, epoch, |train|)
      ensures calls == old(calls) + EpochCalls(this, train, |train|, stepCallback)
      ensures stepCallback ==> stepArgs == old(stepArgs) + entries
      ensures !stepCallback ==> stepArgs == old(stepArgs)
    {
      entries := [];
      for iteration := 1 to |train| + 1
        invariant entries == EpochEntries(this, train, epoch, iteration - 1)
        invariant calls == old(calls) + EpochCalls(this, train, iteration - 1, stepCallback)
        invariant stepCallback ==> stepArgs == old(stepArgs) + entries
        invariant !stepCallback ==> stepArgs == old(stepArgs)
      {
        ghost var entriesBefore := entries;
        var inputs := train[iteration - 1];
        var trainMetrics := FitStep(inputs, epoch, iteration, stepCallback);
        entries := entries + [trainMetrics];
        if stepCallback {
          AppendAssoc(old(stepArgs), entriesBefore, [trainMetrics]);
          AppendAssoc3(old(calls), EpochCalls(this, train, iteration - 1, stepCallback), StepCalls(this, inputs), [StepCallback]);
        } else {
          AppendAssoc(old(calls), EpochCalls(this, train, iteration - 1, stepCallback), StepCalls(this, inputs));
        }
      }
    }

    /** The validation part of one epoch of fit: evaluate, write the summary line, tag the epoch, call back. */
    method ValidateEpoch(validation: seq<Batch>, epoch: nat, epochCallback: bool, render: (Format, real) -> string)
      returns (r: Result<Metrics, TrainError>)
      modifies this`training, this`calls, this`epochArgs, this`written
      ensures !training
      ensures Validated(this, validation).Failure? ==>
        && r == Failure(MetricFailure(Validated(this, validation).error))
        && calls == old(calls) + [TrainMode(false)] + EvalTrace(this, validation, BatchesSeen(EvalMetrics(this, validation)))
        && epochArgs == old(epochArgs) && written == old(written)
      ensures Validated(this, validation).Success? ==>
        && r == Success(ValEntry(Validated(this, validation).value, epoch))
        && calls == old(calls) + ValidationCalls(this, validation, epochCallback)
        && (epochCallback ==> epochArgs == old(epochArgs) + [r.value])
        && (!epochCallback ==> epochArgs == old(epochArgs))
        && written == old(written) + [SummaryLine(this, validation, epoch, render)]
    {
      var valMetrics := Evaluate(validation);
      if valMetrics.Failure? {
        return Failure(MetricFailure(valMetrics.error));
      }
      var value := valMetrics.value;
      BatchesSeenAll(EvalMetrics(this, validation));
      ValidatedWellFormed(this, validation);
      EpochHeaderAccepted(epoch);
      var line := StandardLogging(value, EpochHeader(epoch), render);
      ghost var evalCalls := [TrainMode(false)] + EvalTrace(this, validation, |validation|);
      AppendAssoc(old(calls), [TrainMode(false)], EvalTrace(this, validation, |validation|));
      calls := calls + [Write];
      written := written + [line.value];
      value := Put(value, "epoch", epoch as real);
      if epochCallback {
        calls := calls + [EpochCallback];
        epochArgs := epochArgs + [value];
        AppendAssoc3(old(calls), evalCalls, [Write], [EpochCallback]);
      } else {
        AppendAssoc(old(calls), evalCalls, [Write]);
      }
      r := Success(value);
    }

    /**
     * One iteration of fit's epoch loop: the training pass of epoch `epoch`,
     * then the validation pass when there is a validation set. `calls0` to
     * `written0` are the fields before fit's first epoch; the logs and the
     * fields go from their state after epoch - 1 epochs to their state after
     * `epoch` epochs.
     */
    method FitEpoch(train: seq<Batch>, epoch: nat, validation: Option<seq<Batch>>, stepCallback: bool, epochCallback: bool,
                    render: (Format, real) -> string, trainLog: seq<Metrics>, validationLog: seq<Metrics>,
                    ghost calls0: seq<Call>, ghost stepArgs0: seq<Metrics>, ghost epochArgs0: seq<Metrics>,
                    ghost written0: seq<string>)
      returns (r: Result<(seq<Metrics>, seq<Metrics>), TrainError>)
      requires epoch > 0
      requires validation.Some? && epoch > 1 ==> Validated(this, validation.value).Success?
      requires trainLog == TrainLog(this, train, epoch - 1)
      requires validationLog == ValLog(this, validation, epoch - 1)
      requires calls == calls0 + FitCalls(this, train, validation, epoch - 1, stepCallback, epochCallback)
      requires stepCallback ==> stepArgs == stepArgs0 + trainLog
      requires !stepCallback ==> stepArgs == stepArgs0
      requires epochCallback ==> epochArgs == epochArgs0 + validationLog
      requires !epochCallback ==> epochArgs == epochArgs0
      requires written == written0 + SummaryLines(this, validation, epoch - 1, render)
      modifies this`training, this`calls, this`stepArgs, this`epochArgs, this`written
      ensures r.Failure? <==> validation.Some? && Validated(this, validation.value).Failure?
      ensures r.Failure? ==>
        && r.error == MetricFailure(Validated(this, validation.value).error)
        && calls == old(calls) + EpochCalls(this, train, |train|, stepCallback) + [TrainMode(false)]
                    + EvalTrace(this, validation.value, BatchesSeen(EvalMetrics(this, validation.value)))
        && (stepCallback ==> stepArgs == old(stepArgs) + EpochEntries(this, train, epoch, |train|))
        && (!stepCallback ==> stepArgs == old(stepArgs))
        && epochArgs == old(epochArgs) && written == old(written)
      ensures r.Success? ==>
        && r.value == (TrainLog(this, train, epoch), ValLog(this, validation, epoch))
        && calls == calls0 + FitCalls(this, train, validation, epoch, stepCallback, epochCallback)
        && (stepCallback ==> stepArgs == stepArgs0 + r.value.0)
        && (!stepCallback ==> stepArgs == stepArgs0)
        && (epochCallback ==> epochArgs == epochArgs0 + r.value.1)
        && (!epochCallback ==> epochArgs == epochArgs0)
        && written == written0 + SummaryLines(this, validation, epoch, render)
        && training == (if validation.Some? then false else old(training))
    {
      var entries := TrainEpoch(train, epoch, stepCallback);
      if stepCallback {
        AppendAssoc(stepArgs0, trainLog, entries);
      }
      var validated := RecordValidation(validation, epoch, epochCallback, render, validationLog, epochArgs0, written0);
      if validated.Failure? {
        return Failure(validated.error);
      }
      ghost var validationCalls := if validation.Some? then ValidationCalls(this, validation.value, epochCallback) else [];
      AppendAssoc(old(calls), EpochCalls(this, train, |train|, stepCallback), validationCalls);
      AppendAssoc(calls0, FitCalls(this, train, validation, epoch - 1, stepCallback, epochCallback),
                  FitEpochCalls(this, train, validation, stepCallback, epochCallback));
      r := Success((trainLog + entries, validated.value));
    }

    /**
     * The validation half of one iteration of fit's epoch loop: nothing
     * without a validation set, otherwise one validation pass whose entry and
     * line extend the validation log and the written lines.
     */
    method RecordValidation(validation: Option<seq<Batch>>, epoch: nat, epochCallback: bool,
                            render: (Format, real) -> string, validationLog: seq<Metrics>,
                            ghost epochArgs0: seq<Metrics>, ghost written0: seq<string>)
      returns (r: Result<seq<Metrics>, TrainError>)
      requires epoch > 0
      requires validation.Some? && epoch > 1 ==> Validated(this, validation.value).Success?
      requires validationLog == ValLog(this, validation, epoch - 1)
      requires epochCallback ==> epochArgs == epochArgs0 + validationLog
      requires !epochCallback ==> epochArgs == epochArgs0
      requires written == written0 + SummaryLines(this, validation, epoch - 1, render)
      modifies this`training, this`calls, this`epochArgs, this`written
      ensures r.Failure? <==> validation.Some? && Validated(this, validation.value).Failure?
      ensures r.Failure? ==>
        && r.error == MetricFailure(Validated(this, validation.value).error)
        && calls == old(calls) + [TrainMode(false)]
                    + EvalTrace(this, validation.value, BatchesSeen(EvalMetrics(this, validation.value)))
        && epochArgs == old(epochArgs) && written == old(written)
      ensures r.Success? ==>
        && r.value == ValLog(this, validation, epoch)
        && calls == old(calls) + (if validation.Some? then ValidationCalls(this, validation.value, epochCallback) else [])
        && (epochCallback ==> epochArgs == epochArgs0 + r.value)
        && (!epochCallback ==> epochArgs == epochArgs0)
        && written == written0 + SummaryLines(this, validation, epoch, render)
        && training == (if validation.Some? then false else old(training))
    {
      if validation.None? {
        assert SummaryLines(this, validation, epoch, render) == SummaryLines(this, validation, epoch - 1, render) + [];
        assert calls == old(calls) + [];
        return Success(validationLog + []);
      }
      var val := ValidateEpoch(validation.value, epoch, epochCallback, render);
      if val.Failure? {
        return Failure(val.error);
      }
      if epochCallback {
        AppendAssoc(epochArgs0, validationLog, [val.value]);
      }
      AppendAssoc(written0, SummaryLines(this, validation, epoch - 1, render), EpochSummary(this, validation, epoch, render));
      r := Success(validationLog + [val.value]);
    }

    /**
     * StandardClassifier.fit: for each epoch 1..epochs, one training pass
     * (with no optimizer or scheduler step) and, with a validation set, one
     * validation pass. Returns the training and validation logs.
     */
    method Fit(train: seq<Batch>, epochs: int, validation: Option<seq<Batch>>, stepCallback: bool, epochCallback: bool,
               render: (Format, real) -> string)
      returns (r: Result<(seq<Metrics>, seq<Metrics>), TrainError>)
      modifies this`training, this`calls, this`stepArgs, this`epochArgs, this`written
      ensures r.Failure? <==> FitFails(this, epochs, validation)
      ensures r.Failure? ==>
        && r.error == MetricFailure(Validated(this, validation.value).error)
        && calls == old(calls) + EpochCalls(this, train, |train|, stepCallback) + [TrainMode(false)]
                    + EvalTrace(this, validation.value, BatchesSeen(EvalMetrics(this, validation.value)))
        && (stepCallback ==> stepArgs == old(stepArgs) + TrainLog(this, train, 1))
        && (!stepCallback ==> stepArgs == old(stepArgs))
        && epochArgs == old(epochArgs) && written == old(written)
      ensures r.Success? ==>
        && r.value.0 == TrainLog(this, train, Epochs(epochs))
        && r.value.1 == ValLog(this, validation, Epochs(epochs))
        && calls == old(calls) + FitCalls(this, train, validation, Epochs(epochs), stepCallback, epochCallback)
        && (stepCallback ==> stepArgs == old(stepArgs) + r.value.0)
        && (!stepCallback ==> stepArgs == old(stepArgs))
        && (epochCallback ==> epochArgs == old(epochArgs) + r.value.1)
        && (!epochCallback ==> epochArgs == old(epochArgs))
        && written == old(written) + SummaryLines(this, validation, Epochs(epochs), render)
        && training == (if validation.Some? && Epochs(epochs) > 0 then false else old(training))
    {
      var trainLog: seq<Metrics> := [];
      var validationLog: seq<Metrics> := [];
      var count := Epochs(epochs);
      for epoch := 1 to count + 1
        invariant validation.Some? && epoch > 1 ==> Validated(this, validation.value).Success?
        invariant trainLog == TrainLog(this, train, epoch - 1)
        invariant validationLog == ValLog(this, validation, epoch - 1)
        invariant calls == old(calls) + FitCalls(this, train, validation, epoch - 1, stepCallback, epochCallback)
        invariant stepCallback ==> stepArgs == old(stepArgs) + trainLog
        invariant !stepCallback ==> stepArgs == old(stepArgs)
        invariant epochCallback ==> epochArgs == old(epochArgs) + validationLog
        invariant !epochCallback ==> epochArgs == old(epochArgs)
        invariant written == old(written) + SummaryLines(this, validation, epoch - 1, render)
        invariant training == (if validation.Some? && epoch > 1 then false else old(training))
      {
        var step := FitEpoch(train, epoch, validation, stepCallback, epochCallback, render, trainLog, validationLog,
                             old(calls), old(stepArgs), old(epochArgs), old(written));
        if step.Failure? {
          assert epoch == 1 && trainLog == [];
          assert TrainLog(this, train, 1) == EpochEntries(this, train, 1, |train|);
          return Failure(step.error);
        }
        trainLog, validationLog := step.value.0, step.value.1;
      }
      r := Success((trainLog, validationLog));
    }
  }

  /**
   * StandardClassifier.__init__ by way of BaseTrainable.__init__: the device
   * string, build_network's assertion, the moved-member set (before minus
   * after), the optimizer's learning rate and whether a scheduler is set.
   * __init__ never calls `train()`: the classifier keeps the mode it was
   * passed in (`classifierTraining`; a new torch module is in training mode).
   */
  method Init<O>(classifier: Option<Arg -> O>, loss: (O, nat) -> real, metrics: (seq<nat>, O) -> seq<(string, real)>,
                 cuda: CudaArg, optimizerLr: Option<real>, scheduler: bool, classifierTraining: bool)
    returns (r: Result<StandardClassifier<O>, TrainError>)
    ensures r.Failure? <==> cuda.CudaOther? || classifier.None?
    ensures r.Failure? ==> r.error == AssertionError
    ensures r.Success? ==>
      && fresh(r.value)
      && r.value.classifier == classifier.value && r.value.loss == loss && r.value.metrics == metrics
      && r.value.device == DeviceName(cuda).value
      && r.value.moved == {} && "classifier" in r.value.members
      && r.value.lr == (if optimizerLr.None? then AdamDefaultLr else optimizerLr.value)
      && r.value.hasScheduler == scheduler
      && r.value.training == classifierTraining && r.value.calls == []
  {
    var members: set<string> := {"cuda"};
    var device := DeviceName(cuda);
    if device.Failure? {
      return Failure(AssertionError);
    }
    members := members + {"device", "scheduler"};
    var before := members;
    if classifier.None? {
      return Failure(AssertionError);
    }
    members := members + {"classifier"};
    var moved := MovedMembers(before, members);
    // Every moved member would be looked up in the instance dictionary; the set is empty here.
    assert moved == {};
    members := members + {"optimizer", "loss"};
    var lr := if optimizerLr.None? then AdamDefaultLr else optimizerLr.value;
    var c := new StandardClassifier(classifier.value, loss, metrics, device.value, scheduler, lr, members, moved, classifierTraining);
    r := Success(c);
  }

  /** StandardClassifier's own constructor passes neither an optimizer nor a scheduler. */
  method NewStandardClassifier<O>(classifier: Option<Arg -> O>, loss: (O, nat) -> real, metrics: (seq<nat>, O) -> seq<(string, real)>,
                                  cuda: CudaArg, classifierTraining: bool)
    returns (r: Result<StandardClassifier<O>, TrainError>)
    ensures r.Failure? <==> cuda.CudaOther? || classifier.None?
    ensures r.Success? ==>
      && fresh(r.value) && r.value.lr == AdamDefaultLr && !r.value.hasScheduler && r.value.moved == {}
      && r.value.training == classifierTraining
  {
    r := Init(classifier, loss, metrics, cuda, None, false, classifierTraining);
  }

  // ---------------------------------------------------------------------------
  // Specification functions
  // ---------------------------------------------------------------------------

  /** The calls of one train_step. */
  function TrainStepCalls<O>(c: StandardClassifier<O>, batch: Batch): seq<Call>
  {
    [TrainMode(true), Forward(Tensor(batch[0])), CalcLoss(StepLoss(c, batch)), ZeroGrad, Backward, OptimizerStep]
    + (if c.hasScheduler then [SchedulerStep] else [])
    + [CalcMetrics]
  }

  function StepLoss<O>(c: StandardClassifier<O>, batch: Batch): real
  {
    c.loss(c.classifier(Tensor(batch[0])), batch[|batch| - 1])
  }

  /** The metrics evaluate computes for one batch. */
  function BatchMetrics<O>(c: StandardClassifier<O>, batch: Batch): Metrics
  {
    FromItems(c.metrics(batch, c.classifier(TensorList(batch))))
  }

  /** The metrics of a training step: calculate_metrics on the batch and the outputs of its first tensor. */
  function StepMetrics<O>(c: StandardClassifier<O>, batch: Batch): Metrics
  {
    FromItems(c.metrics(batch, c.classifier(Tensor(batch[0]))))
  }

  function EvalMetrics<O>(c: StandardClassifier<O>, loader: seq<Batch>): (ms: seq<Metrics>)
    ensures |ms| == |loader| && forall i :: 0 <= i < |loader| ==> ms[i] == BatchMetrics(c, loader[i])
  {
    if |loader| == 0 then [] else EvalMetrics(c, loader[..|loader| - 1]) + [BatchMetrics(c, loader[|loader| - 1])]
  }

  /** Each batch's metrics is a dict, so well formed. */
  lemma EvalMetricsWellFormed<O>(c: StandardClassifier<O>, loader: seq<Batch>)
    ensures forall i :: 0 <= i < |loader| ==> WellFormed(EvalMetrics(c, loader)[i])
  {
    forall i | 0 <= i < |loader|
      ensures WellFormed(EvalMetrics(c, loader)[i])
    {
      FromItemsWellFormed(c.metrics(loader[i], c.classifier(TensorList(loader[i]))));
    }
  }

  /** What evaluate returns is well formed. */
  lemma ValidatedWellFormed<O>(c: StandardClassifier<O>, loader: seq<Batch>)
    requires Validated(c, loader).Success?
    ensures WellFormed(Validated(c, loader).value)
  {
    EvalMetricsWellFormed(c, loader);
    AccumulateWellFormed(EvalMetrics(c, loader));
  }

  /** What evaluate returns, or the KeyError it raises. */
  function Validated<O>(c: StandardClassifier<O>, loader: seq<Batch>): Result<Metrics, MetricError>
  {
    Accumulate(EvalMetrics(c, loader))
  }

  /** The calls evaluate makes for its first n batches. */
  function EvalTrace<O>(c: StandardClassifier<O>, loader: seq<Batch>, n: nat): seq<Call>
    requires n <= |loader|
  {
    if n == 0 then [] else EvalTrace(c, loader, n - 1) + [Forward(TensorList(loader[n - 1])), CalcMetrics]
  }

  /** The log entry of one training step: the step's metrics, `loss` if they lack it, then epoch, iteration and lr. */
  function TrainEntry<O>(c: StandardClassifier<O>, batch: Batch, epoch: nat, iteration: nat): Metrics
  {
    var m := SetDefault(StepMetrics(c, batch), "loss", StepLoss(c, batch));
    PutAll(m, [("epoch", epoch as real), ("iteration", iteration as real), ("lr", c.lr)])
  }

  /** The log entries of the first n steps of an epoch. */
  function EpochEntries<O>(c: StandardClassifier<O>, train: seq<Batch>, epoch: nat, n: nat): seq<Metrics>
    requires n <= |train|
  {
    if n == 0 then [] else EpochEntries(c, train, epoch, n - 1) + [TrainEntry(c, train[n - 1], epoch, n)]
  }

  /** The calls of the first n steps of an epoch. */
  function EpochCalls<O>(c: StandardClassifier<O>, train: seq<Batch>, n: nat, stepCallback: bool): seq<Call>
    requires n <= |train|
  {
    if n == 0 then []
    else
      var batch := train[n - 1];
      EpochCalls(c, train, n - 1, stepCallback) + StepCalls(c, batch) + (if stepCallback then [StepCallback] else [])
  }

  /** The calls of one step of fit's inner loop: forward, loss, zero_grad and backward, metrics. */
  function StepCalls<O>(c: StandardClassifier<O>, batch: Batch): seq<Call>
  {
    [Forward(Tensor(batch[0])), CalcLoss(StepLoss(c, batch)), ZeroGrad, Backward, CalcMetrics]
  }

  /** The number of epochs `range(1, epochs + 1)` runs. */
  function Epochs(epochs: int): nat
  {
    if epochs > 0 then epochs else 0
  }

  /** The training log after k epochs. */
  function TrainLog<O>(c: StandardClassifier<O>, train: seq<Batch>, k: nat): seq<Metrics>
  {
    if k == 0 then [] else TrainLog(c, train, k - 1) + EpochEntries(c, train, k, |train|)
  }

  /** The `End of Epoch N` message standard_logging starts from. */
  function EpochHeader(epoch: nat): string
  {
    "End of Epoch " + Text.Decimal(epoch)
  }

  /** A validation entry: evaluate's metrics with the epoch added. */
  function ValEntry(m: Metrics, epoch: nat): Metrics
  {
    Put(m, "epoch", epoch as real)
  }

  /** The validation log after k epochs. */
  function ValLog<O>(c: StandardClassifier<O>, validation: Option<seq<Batch>>, k: nat): seq<Metrics>
    requires validation.Some? && k > 0 ==> Validated(c, validation.value).Success?
  {
    if k == 0 then [] else ValLog(c, validation, k - 1) + EpochValEntries(c, validation, k)
  }

  /** The validation entry epoch `epoch` adds: none without a validation set. */
  function EpochValEntries<O>(c: StandardClassifier<O>, validation: Option<seq<Batch>>, epoch: nat): seq<Metrics>
    requires validation.Some? ==> Validated(c, validation.value).Success?
  {
    if validation.None? then [] else [ValEntry(Validated(c, validation.value).value, epoch)]
  }

  /** The line standard_logging writes after validating epoch `epoch`. */
  function SummaryLine<O>(c: StandardClassifier<O>, validation: seq<Batch>, epoch: nat, render: (Format, real) -> string): string
    requires Validated(c, validation).Success?
  {
    EpochHeaderAccepted(epoch);
    ValidatedWellFormed(c, validation);
    LogLine(Validated(c, validation).value, EpochHeader(epoch), render).value
  }

  /** The lines written over k epochs: one per epoch with a validation set, none without. */
  function SummaryLines<O>(c: StandardClassifier<O>, validation: Option<seq<Batch>>, k: nat, render: (Format, real) -> string)
    : seq<string>
    requires validation.Some? && k > 0 ==> Validated(c, validation.value).Success?
  {
    if k == 0 then [] else SummaryLines(c, validation, k - 1, render) + EpochSummary(c, validation, k, render)
  }

  /** The line epoch `epoch` writes: none without a validation set. */
  function EpochSummary<O>(c: StandardClassifier<O>, validation: Option<seq<Batch>>, epoch: nat, render: (Format, real) -> string)
    : seq<string>
    requires validation.Some? ==> Validated(c, validation.value).Success?
  {
    if validation.None? then [] else [SummaryLine(c, validation.value, epoch, render)]
  }

  /** The calls of a validation pass that succeeds. */
  function ValidationCalls<O>(c: StandardClassifier<O>, validation: seq<Batch>, epochCallback: bool): seq<Call>
  {
    [TrainMode(false)] + EvalTrace(c, validation, |validation|) + [Write] + (if epochCallback then [EpochCallback] else [])
  }

  /** The calls of one epoch of fit that succeeds: the training pass, then the validation pass when there is one. */
  function FitEpochCalls<O>(c: StandardClassifier<O>, train: seq<Batch>, validation: Option<seq<Batch>>,
                            stepCallback: bool, epochCallback: bool): seq<Call>
  {
    EpochCalls(c, train, |train|, stepCallback)
    + (if validation.Some? then ValidationCalls(c, validation.value, epochCallback) else [])
  }

  /** The calls of k complete epochs of fit. */
  function FitCalls<O>(c: StandardClassifier<O>, train: seq<Batch>, validation: Option<seq<Batch>>, k: nat,
                       stepCallback: bool, epochCallback: bool): seq<Call>
  {
    if k == 0 then []
    else FitCalls(c, train, validation, k - 1, stepCallback, epochCallback) + FitEpochCalls(c, train, validation, stepCallback, epochCallback)
  }

  /** fit raises exactly when it validates at least once and evaluate raises. */
  predicate FitFails<O>(c: StandardClassifier<O>, epochs: int, validation: Option<seq<Batch>>)
  {
    validation.Some? && Epochs(epochs) > 0 && Validated(c, validation.value).Failure?
  }

  // ---------------------------------------------------------------------------
  // Lemmas
  // ---------------------------------------------------------------------------

  lemma AppendAssoc<T>(a: seq<T>, b: seq<T>, c: seq<T>)
    ensures a + b + c == a + (b + c)
  {
  }

  lemma AppendAssoc3<T>(a: seq<T>, b: seq<T>, c: seq<T>, d: seq<T>)
    ensures a + b + c + d == a + (b + c + d)
  {
  }

  /** The header of an epoch's summary line never fails: it ends in a digit. */
  lemma EpochHeaderAccepted(epoch: nat)
    ensures Header(EpochHeader(epoch)) == Success(EpochHeader(epoch) + " |")
  {
    var d := Text.Decimal(epoch);
    assert !Text.IsSpace(d[|d| - 1]);
    Text.RStripAppendNonSpace("End of Epoch ", d);
  }

  /** train_step runs forward, loss, zero_grad and backward, the optimizer step, the scheduler step if set, then metrics. */
  lemma TrainStepOrder<O>(c: StandardClassifier<O>, batch: Batch)
    ensures var t := TrainStepCalls(c, batch);
      && t[..6] == [TrainMode(true), Forward(Tensor(batch[0])), CalcLoss(StepLoss(c, batch)), ZeroGrad, Backward, OptimizerStep]
      && t[|t| - 1] == CalcMetrics
      && (SchedulerStep in t <==> c.hasScheduler)
  {
  }

  /** A training-log entry holds the step's metrics, `loss` (the step's own value unless the metrics have one), epoch, iteration and lr. */
  lemma TrainEntryValues<O>(c: StandardClassifier<O>, batch: Batch, epoch: nat, iteration: nat)
    ensures var m := StepMetrics(c, batch);
      var e := TrainEntry(c, batch, epoch, iteration);
      && e.vals.Keys == m.vals.Keys + {"loss", "epoch", "iteration", "lr"}
      && e.vals["epoch"] == epoch as real && e.vals["iteration"] == iteration as real && e.vals["lr"] == c.lr
      && e.vals["loss"] == (if "loss" in m.vals then m.vals["loss"] else StepLoss(c, batch))
      && (forall k :: k in m.vals && k !in {"loss", "epoch", "iteration", "lr"} ==> e.vals[k] == m.vals[k])
  {
    var m := StepMetrics(c, batch);
    var s := SetDefault(m, "loss", StepLoss(c, batch));
    PutAllThree(s, ("epoch", epoch as real), ("iteration", iteration as real), ("lr", c.lr));
  }

  /** A training-log entry keeps the order of the step's metrics and adds its own fields after them. */
  lemma TrainEntryOrder<O>(c: StandardClassifier<O>, batch: Batch, epoch: nat, iteration: nat)
    ensures var m := StepMetrics(c, batch);
      var e := TrainEntry(c, batch, epoch, iteration);
      |m.keys| <= |e.keys| && e.keys[..|m.keys|] == m.keys
  {
    var m := StepMetrics(c, batch);
    var s := SetDefault(m, "loss", StepLoss(c, batch));
    var e1 := Put(s, "epoch", epoch as real);
    var e2 := Put(e1, "iteration", iteration as real);
    var e3 := Put(e2, "lr", c.lr);
    PutAllThree(s, ("epoch", epoch as real), ("iteration", iteration as real), ("lr", c.lr));
    PutExtendsKeys(e2, "lr", c.lr);
    PutExtendsKeys(e1, "iteration", iteration as real);
    PutExtendsKeys(s, "epoch", epoch as real);
    if "loss" !in m.vals {
      PutExtendsKeys(m, "loss", StepLoss(c, batch));
    }
    PrefixTrans(m.keys, s.keys, e1.keys);
    PrefixTrans(m.keys, e1.keys, e2.keys);
    PrefixTrans(m.keys, e2.keys, e3.keys);
  }

  /** With the base class's calculate_metrics (no items), each entry holds exactly loss, epoch, iteration and lr. */
  lemma DefaultMetricsEntry<O>(c: StandardClassifier<O>, batch: Batch, epoch: nat, iteration: nat)
    requires forall b: seq<nat>, a: Arg :: c.metrics(b, c.classifier(a)) == []
    ensures TrainEntry(c, batch, epoch, iteration).keys == ["loss", "epoch", "iteration", "lr"]
  {
    var m := StepMetrics(c, batch);
    assert m == Empty;
    var s := SetDefault(m, "loss", StepLoss(c, batch));
    assert s.keys == ["loss"];
    PutAllThree(s, ("epoch", epoch as real), ("iteration", iteration as real), ("lr", c.lr));
    assert Put(s, "epoch", epoch as real).keys == ["loss", "epoch"];
    assert Put(Put(s, "epoch", epoch as real), "iteration", iteration as real).keys == ["loss", "epoch", "iteration"];
  }

  /** With the base class's calculate_metrics, evaluate returns an empty dict. */
  lemma {:induction false} DefaultMetricsValidation<O>(c: StandardClassifier<O>, loader: seq<Batch>)
    requires forall b: seq<nat>, a: Arg :: c.metrics(b, c.classifier(a)) == []
    ensures Validated(c, loader) == Success(Empty)
    decreases |loader|
  {
    var ms := EvalMetrics(c, loader);
    if |loader| == 0 {
      assert ms == [];
    } else {
      var prefix := loader[..|loader| - 1];
      DefaultMetricsValidation(c, prefix);
      assert ms[..|loader| - 1] == EvalMetrics(c, prefix);
      var last := ms[|loader| - 1];
      assert last == FromItems(c.metrics(loader[|loader| - 1], c.classifier(TensorList(loader[|loader| - 1]))));
      assert last == Empty;
      assert Validated(c, loader) == UpdateMetrics(Empty, last, |loader|);
    }
  }

  lemma {:induction false} EpochEntriesShape<O>(c: StandardClassifier<O>, train: seq<Batch>, epoch: nat, n: nat)
    requires n <= |train|
    ensures |EpochEntries(c, train, epoch, n)| == n
    ensures forall i :: 0 <= i < n ==> EpochEntries(c, train, epoch, n)[i] == TrainEntry(c, train[i], epoch, i + 1)
  {
    if n > 0 {
      EpochEntriesShape(c, train, epoch, n - 1);
      var front := EpochEntries(c, train, epoch, n - 1);
      var entries := EpochEntries(c, train, epoch, n);
      assert entries == front + [TrainEntry(c, train[n - 1], epoch, n)];
      forall i | 0 <= i < n - 1
        ensures entries[i] == TrainEntry(c, train[i], epoch, i + 1)
      {
        assert entries[i] == front[i];
      }
    }
  }

  /** fit's training log has one entry per training step of every epoch. */
  lemma {:induction false} TrainLogLength<O>(c: StandardClassifier<O>, train: seq<Batch>, k: nat)
    ensures |TrainLog(c, train, k)| == k * |train|
  {
    if k > 0 {
      TrainLogLength(c, train, k - 1);
      EpochEntriesShape(c, train, k, |train|);
      assert (k - 1) * |train| + |train| == k * |train|;
    }
  }

  lemma MulMono(a: nat, b: nat, n: nat)
    requires a <= b
    ensures a * n <= b * n
  {
  }

  /** The log of the first j epochs is a prefix of the log of k >= j epochs. */
  lemma {:induction false} TrainLogPrefix<O>(c: StandardClassifier<O>, train: seq<Batch>, j: nat, k: nat)
    requires j <= k
    ensures j * |train| <= |TrainLog(c, train, k)|
    ensures TrainLog(c, train, k)[..j * |train|] == TrainLog(c, train, j)
    decreases k
  {
    TrainLogLength(c, train, j);
    TrainLogLength(c, train, k);
    MulMono(j, k, |train|);
    if j < k {
      TrainLogPrefix(c, train, j, k - 1);
      TrainLogLength(c, train, k - 1);
      MulMono(j, k - 1, |train|);
      var front := TrainLog(c, train, k - 1);
      assert TrainLog(c, train, k)[..j * |train|] == front[..j * |train|];
    }
  }

  /** fit's training log is the epochs' entries one after the other: epoch e fills positions (e - 1) × n to e × n. */
  lemma TrainLogShape<O>(c: StandardClassifier<O>, train: seq<Batch>, k: nat)
    ensures |TrainLog(c, train, k)| == k * |train|
    ensures forall e :: 1 <= e <= k ==>
      e * |train| <= k * |train|
      && TrainLog(c, train, k)[(e - 1) * |train|..e * |train|] == EpochEntries(c, train, e, |train|)
  {
    var n := |train|;
    TrainLogLength(c, train, k);
    forall e | 1 <= e <= k
      ensures e * n <= k * n && TrainLog(c, train, k)[(e - 1) * n..e * n] == EpochEntries(c, train, e, n)
    {
      TrainLogPrefix(c, train, e, k);
      TrainLogLength(c, train, e - 1);
      EpochEntriesShape(c, train, e, n);
      var log := TrainLog(c, train, k);
      assert (e - 1) * n + n == e * n;
      assert log[(e - 1) * n..e * n] == log[..e * n][(e - 1) * n..];
      assert TrainLog(c, train, e) == TrainLog(c, train, e - 1) + EpochEntries(c, train, e, n);
    }
  }

  /** The validation log has one entry per epoch, each evaluate's metrics tagged with its epoch; none without a validation set. */
  lemma {:induction false} ValLogShape<O>(c: StandardClassifier<O>, validation: Option<seq<Batch>>, k: nat)
    requires validation.Some? && k > 0 ==> Validated(c, validation.value).Success?
    ensures |ValLog(c, validation, k)| == if validation.Some? then k else 0
    ensures validation.Some? ==> forall e :: 0 <= e < k ==>
      ValLog(c, validation, k)[e] == ValEntry(Validated(c, validation.value).value, e + 1)
  {
    if k > 0 {
      ValLogShape(c, validation, k - 1);
      if validation.Some? {
        var front := ValLog(c, validation, k - 1);
        var log := ValLog(c, validation, k);
        assert log == front + [ValEntry(Validated(c, validation.value).value, k)];
        forall e | 0 <= e < k
          ensures log[e] == ValEntry(Validated(c, validation.value).value, e + 1)
        {
          if e < k - 1 {
            assert log[e] == front[e];
          }
        }
      }
    }
  }

  /** A validation entry keeps evaluate's metrics and adds the epoch. */
  lemma ValEntryFields(m: Metrics, epoch: nat)
    ensures ValEntry(m, epoch).vals["epoch"] == epoch as real
    ensures forall k :: k in m.vals && k != "epoch" ==> ValEntry(m, epoch).vals[k] == m.vals[k]
    ensures ValEntry(m, epoch).keys[..|m.keys|] == m.keys
  {
  }

  /** The summary lines: one per validated epoch, in epoch order. */
  lemma {:induction false} SummaryLinesAt<O>(c: StandardClassifier<O>, validation: Option<seq<Batch>>, k: nat,
                                             render: (Format, real) -> string)
    requires validation.Some? && k > 0 ==> Validated(c, validation.value).Success?
    ensures |SummaryLines(c, validation, k, render)| == if validation.Some? then k else 0
    ensures validation.Some? ==> forall e :: 0 <= e < k ==>
      SummaryLines(c, validation, k, render)[e] == SummaryLine(c, validation.value, e + 1, render)
  {
    if k > 0 {
      SummaryLinesAt(c, validation, k - 1, render);
      if validation.Some? {
        var front := SummaryLines(c, validation, k - 1, render);
        var lines := SummaryLines(c, validation, k, render);
        assert lines == front + [SummaryLine(c, validation.value, k, render)];
        forall e | 0 <= e < k
          ensures lines[e] == SummaryLine(c, validation.value, e + 1, render)
        {
          if e < k - 1 {
            assert lines[e] == front[e];
          }
        }
      }
    }
  }

  /** Each summary line starts with its own epoch's header and a bar. */
  lemma SummaryLinesShape<O>(c: StandardClassifier<O>, validation: Option<seq<Batch>>, k: nat,
                             render: (Format, real) -> string)
    requires validation.Some? && k > 0 ==> Validated(c, validation.value).Success?
    ensures |SummaryLines(c, validation, k, render)| == if validation.Some? then k else 0
    ensures validation.Some? ==> forall e :: 0 <= e < k ==>
      var line := SummaryLines(c, validation, k, render)[e];
      && |EpochHeader(e + 1) + " |"| <= |line|
      && line[..|EpochHeader(e + 1) + " |"|] == EpochHeader(e + 1) + " |"
  {
    SummaryLinesAt(c, validation, k, render);
    if validation.Some? {
      forall e | 0 <= e < k
        ensures var line := SummaryLines(c, validation, k, render)[e];
          && |EpochHeader(e + 1) + " |"| <= |line|
          && line[..|EpochHeader(e + 1) + " |"|] == EpochHeader(e + 1) + " |"
      {
        SummaryLineStart(c, validation.value, e + 1, render);
      }
    }
  }

  /** A summary line is `End of Epoch N |` followed by the metric segments. */
  lemma SummaryLineStart<O>(c: StandardClassifier<O>, validation: seq<Batch>, epoch: nat, render: (Format, real) -> string)
    requires Validated(c, validation).Success?
    ensures var h := EpochHeader(epoch) + " |"; var line := SummaryLine(c, validation, epoch, render);
      |h| <= |line| && line[..|h|] == h
  {
    EpochHeaderAccepted(epoch);
    ValidatedWellFormed(c, validation);
    var m := Validated(c, validation).value;
    var h := EpochHeader(epoch) + " |";
    assert SummaryLine(c, validation, epoch, render) == h + Segments(m, |m.keys|, render);
  }

  // --- Counting calls in a trace ---

  /** How many times `call` occurs in a trace. */
  function Count(cs: seq<Call>, call: Call): nat
  {
    if |cs| == 0 then 0 else Count(cs[..|cs| - 1], call) + (if cs[|cs| - 1] == call then 1 else 0)
  }

  lemma {:induction false} CountAppend(a: seq<Call>, b: seq<Call>, call: Call)
    ensures Count(a + b, call) == Count(a, call) + Count(b, call)
    decreases |b|
  {
    if |b| == 0 {
      assert a + b == a;
    } else {
      var front := b[..|b| - 1];
      assert (a + b)[..|a + b| - 1] == a + front;
      CountAppend(a, front, call);
    }
  }

  lemma CountSingle(x: Call, call: Call)
    ensures Count([x], call) == if x == call then 1 else 0
  {
    assert [x][..0] == [];
  }

  /** A call occurs in a trace exactly when its count is positive. */
  lemma {:induction false} CountPositive(cs: seq<Call>, call: Call)
    ensures Count(cs, call) > 0 <==> call in cs
  {
    if |cs| > 0 {
      var front := cs[..|cs| - 1];
      CountPositive(front, call);
      assert cs == front + [cs[|cs| - 1]];
    }
  }

  /** The calls that only a training step makes, or that fit never makes. */
  predicate Counted(call: Call)
  {
    call == Backward || call == OptimizerStep || call == SchedulerStep || call == TrainMode(true)
    || call == StepCallback || call == EpochCallback || call == Write
  }

  /** A step of fit's inner loop calls backward once, and nothing else counted. */
  lemma StepCallsCount<O>(c: StandardClassifier<O>, batch: Batch, call: Call)
    requires Counted(call)
    ensures Count(StepCalls(c, batch), call) == if call == Backward then 1 else 0
  {
    var t := StepCalls(c, batch);
    assert t == [t[0]] + [t[1]] + [t[2]] + [t[3]] + [t[4]];
    CountAppend([t[0]] + [t[1]] + [t[2]] + [t[3]], [t[4]], call);
    CountAppend([t[0]] + [t[1]] + [t[2]], [t[3]], call);
    CountAppend([t[0]] + [t[1]], [t[2]], call);
    CountAppend([t[0]], [t[1]], call);
    CountSingle(t[0], call);
    CountSingle(t[1], call);
    CountSingle(t[2], call);
    CountSingle(t[3], call);
    CountSingle(t[4], call);
  }

  /** evaluate's loop makes no counted call: only forward passes and metric calculations. */
  lemma {:induction false} EvalTraceCount<O>(c: StandardClassifier<O>, loader: seq<Batch>, n: nat, call: Call)
    requires n <= |loader| && Counted(call)
    ensures Count(EvalTrace(c, loader, n), call) == 0
  {
    if n > 0 {
      EvalTraceCount(c, loader, n - 1, call);
      var pair := [Forward(TensorList(loader[n - 1])), CalcMetrics];
      CountAppend(EvalTrace(c, loader, n - 1), pair, call);
      assert pair == [pair[0]] + [pair[1]];
      CountAppend([pair[0]], [pair[1]], call);
      CountSingle(pair[0], call);
      CountSingle(pair[1], call);
    }
  }

  /** The counted calls of n steps of an epoch: backward, and the step callback when there is one, once per step. */
  lemma {:induction false} EpochCallsCount<O>(c: StandardClassifier<O>, train: seq<Batch>, n: nat, stepCallback: bool,
                                              call: Call)
    requires n <= |train| && Counted(call)
    ensures Count(EpochCalls(c, train, n, stepCallback), call)
      == if call == Backward || (stepCallback && call == StepCallback) then n else 0
  {
    if n > 0 {
      EpochCallsCount(c, train, n - 1, stepCallback, call);
      var front := EpochCalls(c, train, n - 1, stepCallback);
      var step := StepCalls(c, train[n - 1]);
      var tail := if stepCallback then [StepCallback] else [];
      CountAppend(front + step, tail, call);
      CountAppend(front, step, call);
      StepCallsCount(c, train[n - 1], call);
      if stepCallback {
        CountSingle(StepCallback, call);
      }
    }
  }

  /** The counted calls of a validation pass: one write, and one epoch callback when there is one. */
  lemma ValidationCallsCount<O>(c: StandardClassifier<O>, validation: seq<Batch>, epochCallback: bool, call: Call)
    requires Counted(call)
    ensures Count(ValidationCalls(c, validation, epochCallback), call)
      == if call == Write || (epochCallback && call == EpochCallback) then 1 else 0
  {
    var eval := EvalTrace(c, validation, |validation|);
    var tail := if epochCallback then [EpochCallback] else [];
    EvalTraceCount(c, validation, |validation|, call);
    CountAppend([TrainMode(false)] + eval + [Write], tail, call);
    CountAppend([TrainMode(false)] + eval, [Write], call);
    CountAppend([TrainMode(false)], eval, call);
    CountSingle(TrainMode(false), call);
    CountSingle(Write, call);
    if epochCallback {
      CountSingle(EpochCallback, call);
    }
  }

  /** The counted calls of one epoch of fit. */
  function PerEpoch(call: Call, batches: nat, validated: bool, stepCallback: bool, epochCallback: bool): nat
  {
    (if call == Backward || (stepCallback && call == StepCallback) then batches else 0)
    + (if validated && (call == Write || (epochCallback && call == EpochCallback)) then 1 else 0)
  }

  /** The counted calls of one epoch of fit: its training steps, then its validation pass when there is one. */
  lemma OneEpochCount<O>(c: StandardClassifier<O>, train: seq<Batch>, validation: Option<seq<Batch>>,
                         stepCallback: bool, epochCallback: bool, call: Call)
    requires Counted(call)
    ensures Count(FitEpochCalls(c, train, validation, stepCallback, epochCallback), call)
      == PerEpoch(call, |train|, validation.Some?, stepCallback, epochCallback)
  {
    CountAppend(EpochCalls(c, train, |train|, stepCallback),
                if validation.Some? then ValidationCalls(c, validation.value, epochCallback) else [], call);
    EpochCallsCount(c, train, |train|, stepCallback, call);
    if validation.Some? {
      ValidationCallsCount(c, validation.value, epochCallback, call);
    }
  }

  /** k copies of p added up, unfolded one epoch at a time. */
  function Times(k: nat, p: nat): nat
  {
    if k == 0 then 0 else Times(k - 1, p) + p
  }

  lemma {:induction false} TimesIsProduct(k: nat, p: nat)
    ensures Times(k, p) == k * p
  {
    if k > 0 {
      TimesIsProduct(k - 1, p);
      assert (k - 1) * p + p == k * p;
    }
  }

  /** Over k epochs, each counted call occurs as often as in k single epochs added up. */
  lemma {:induction false} FitCallsCount<O>(c: StandardClassifier<O>, train: seq<Batch>, validation: Option<seq<Batch>>,
                                            k: nat, stepCallback: bool, epochCallback: bool, call: Call)
    requires Counted(call)
    ensures Count(FitCalls(c, train, validation, k, stepCallback, epochCallback), call)
      == Times(k, PerEpoch(call, |train|, validation.Some?, stepCallback, epochCallback))
  {
    if k > 0 {
      FitCallsCount(c, train, validation, k - 1, stepCallback, epochCallback, call);
      CountAppend(FitCalls(c, train, validation, k - 1, stepCallback, epochCallback),
                  FitEpochCalls(c, train, validation, stepCallback, epochCallback), call);
      OneEpochCount(c, train, validation, stepCallback, epochCallback, call);
    }
  }

  /** fit never steps the optimizer or the scheduler, and never puts the classifier into training mode. */
  lemma FitNeverSteps<O>(c: StandardClassifier<O>, train: seq<Batch>, validation: Option<seq<Batch>>, k: nat,
                         stepCallback: bool, epochCallback: bool)
    ensures var t := FitCalls(c, train, validation, k, stepCallback, epochCallback);
      OptimizerStep !in t && SchedulerStep !in t && TrainMode(true) !in t
  {
    var t := FitCalls(c, train, validation, k, stepCallback, epochCallback);
    var v := validation.Some?;
    TimesIsProduct(k, 0);
    FitCallsCount(c, train, validation, k, stepCallback, epochCallback, OptimizerStep);
    assert PerEpoch(OptimizerStep, |train|, v, stepCallback, epochCallback) == 0;
    FitCallsCount(c, train, validation, k, stepCallback, epochCallback, SchedulerStep);
    assert PerEpoch(SchedulerStep, |train|, v, stepCallback, epochCallback) == 0;
    FitCallsCount(c, train, validation, k, stepCallback, epochCallback, TrainMode(true));
    assert PerEpoch(TrainMode(true), |train|, v, stepCallback, epochCallback) == 0;
    CountPositive(t, OptimizerStep);
    CountPositive(t, SchedulerStep);
    CountPositive(t, TrainMode(true));
  }

  /**
   * Over k epochs fit calls backward once per training step, the step
   * callback once per step when there is one, and writes a line and calls the
   * epoch callback once per validated epoch.
   */
  lemma FitCallCounts<O>(c: StandardClassifier<O>, train: seq<Batch>, validation: Option<seq<Batch>>, k: nat,
                         stepCallback: bool, epochCallback: bool)
    ensures var t := FitCalls(c, train, validation, k, stepCallback, epochCallback);
      && Count(t, Backward) == k * |train|
      && Count(t, StepCallback) == (if stepCallback then k * |train| else 0)
      && Count(t, Write) == (if validation.Some? then k else 0)
      && Count(t, EpochCallback) == (if validation.Some? && epochCallback then k else 0)
  {
    var v := validation.Some?;
    FitCallsCount(c, train, validation, k, stepCallback, epochCallback, Backward);
    assert PerEpoch(Backward, |train|, v, stepCallback, epochCallback) == |train|;
    FitCallsCount(c, train, validation, k, stepCallback, epochCallback, StepCallback);
    assert PerEpoch(StepCallback, |train|, v, stepCallback, epochCallback) == if stepCallback then |train| else 0;
    FitCallsCount(c, train, validation, k, stepCallback, epochCallback, Write);
    assert PerEpoch(Write, |train|, v, stepCallback, epochCallback) == if v then 1 else 0;
    FitCallsCount(c, train, validation, k, stepCallback, epochCallback, EpochCallback);
    assert PerEpoch(EpochCallback, |train|, v, stepCallback, epochCallback) == if v && epochCallback then 1 else 0;
    TimesIsProduct(k, |train|);
    TimesIsProduct(k, 1);
    TimesIsProduct(k, 0);
  }
}
