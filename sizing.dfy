/** The integer arithmetic that sizes the training run: batches per epoch,
    epochs needed for the configured number of iterations, and the number of
    epochs the epoch loop visits. */
module Sizing {
  import opened Common

  /** Each distributed epoch is enlarged by this factor. */
  const DatasetRatio: int := 200

  /** `int(math.ceil(a / b))` computed exactly on integers; a zero divisor raises. */
  function CeilDiv(a: int, b: int): (r: Result<int>)
    ensures r.Raise? <==> b == 0
    ensures r.Raise? ==> r.error == ZeroDivisionError
    ensures b > 0 && r.Ok? ==> (r.value - 1) * b < a <= r.value * b
    ensures b < 0 && r.Ok? ==> r.value * b <= a < (r.value - 1) * b
  {
    if b == 0 then Raise(ZeroDivisionError)
    else if b > 0 then CeilPos(a, b)
    else CeilNeg(a, b)
  }

  function CeilPos(a: int, b: int): (r: Result<int>)
    requires b > 0
    ensures r.Ok? && (r.value - 1) * b < a <= r.value * b
  {
    var q := -((-a) / b);
    DivBounds(-a, b);
    assert (-q) * b <= -a < (-q + 1) * b;
    Ok(q)
  }

  function CeilNeg(a: int, b: int): (r: Result<int>)
    requires b < 0
    ensures r.Ok? && r.value * b <= a < (r.value - 1) * b
  {
    var q := -(a / (-b));
    DivBounds(a, -b);
    assert (-q) * (-b) <= a < (-q + 1) * (-b);
    Ok(q)
  }

  lemma DivBounds(a: int, d: int)
    requires d > 0
    ensures (a / d) * d <= a < (a / d + 1) * d
  {
  }

  /** How the training run is sized (lines 163-176 of the training script). */
  datatype Plan = Plan(trainSize: int, totalEpochs: int)

  /** `train_size = ceil(len / batch_size)`, then
      `total_epochs = ceil(total_iters / train_size)`, or, when distributed,
      `ceil(total_iters / (train_size * 200))`. */
  function EpochPlan(trainLen: nat, batchSize: int, totalIters: int, distributed: bool): (r: Result<Plan>)
    ensures batchSize > 0 ==> (r.Raise? <==> trainLen == 0)
    ensures batchSize > 0 && r.Ok? ==>
      var k := if distributed then DatasetRatio else 1;
      && (r.value.trainSize - 1) * batchSize < trainLen <= r.value.trainSize * batchSize
      && 0 < r.value.trainSize
      && (r.value.totalEpochs - 1) * (r.value.trainSize * k) < totalIters <= r.value.totalEpochs * (r.value.trainSize * k)
  {
    match CeilDiv(trainLen, batchSize)
    case Raise(e) => Raise(e)
    case Ok(trainSize) =>
      var divisor := if distributed then trainSize * DatasetRatio else trainSize;
      match CeilDiv(totalIters, divisor)
      case Raise(e) => Raise(e)
      case Ok(totalEpochs) => Ok(Plan(trainSize, totalEpochs))
  }
}
