/** The training script's control core as pure functions over an explicit
    state: the step counter and its break, the validation trigger and average,
    the best record, accept/rollback of the weight snapshot, and the checkpoint
    condition. The network, the data and the metric are opaque: weights are a
    type parameter `W`, one optimisation step is `Env.train`, inference over the
    validation set is `Env.infer` and the per-image metric is `Env.psnr`. */
module Rollback {
  import opened Common
  import Crop

  /** A validation average above this is accepted; otherwise the weights roll back. */
  const AcceptThreshold: real := 20.0
  /** A checkpoint is written only when the last average is above this. */
  const SaveThreshold: real := 26.0

  type Image<P> = seq<seq<P>>

  /** The options the loop reads: `niter`, `print_freq`, `val_freq`,
      `save_checkpoint_freq`, the process rank (-1 when not distributed) and `scale`. */
  datatype Config = Config(totalIters: int, printFreq: int, valFreq: int, saveFreq: int, rank: int, scale: nat)

  /** The collaborators the loop calls but does not define. `train(step, w)` is
      degradation, `feed_data`, `optimize_parameters` and the learning-rate update
      for the batch of that step; `infer(w)` gives, per validation image in
      loader order, the (super-resolved, ground-truth) pair produced by `test()`;
      `psnr` is the luma PSNR of two images. */
  datatype Env<!W, !P> = Env(
    train: (int, W) -> W,
    infer: W -> seq<(Image<P>, Image<P>)>,
    psnr: (Image<P>, Image<P>) -> real)

  datatype Best = Best(psnr: real, iter: int)

  /** What the loop emits: a training step, a validation (its average and whether
      it was accepted), a checkpoint with its epoch and step, and the final save. */
  datatype Event =
    | Trained(step: int)
    | Validated(step: int, avg: real, accepted: bool)
    | Saved(epoch: int, step: int)
    | SavedLatest

  /** `current_step`, `(best_psnr, best_iter)`, `avg_psnr` (None while unbound),
      the live weights, `prev_state_dict`, and the events so far. */
  datatype State<W> = State(step: int, best: Best, avgPsnr: Option<real>, live: W, snapshot: W, events: seq<Event>)

  /** A state reached, and the exception that stopped the run there, if any. */
  datatype Outcome<W> = Outcome(state: State<W>, error: Option<PyError>)

  /** Before the first step: the counter is 0 or the resumed `iter`, the best
      record is (0.0, 0), and the snapshot is a copy of the live weights. */
  function Start<W>(w0: W, iter: int): State<W>
  {
    State(iter, Best(0.0, 0), None, w0, w0, [])
  }

  // ----- averaging the validation metric -----

  /** Left-to-right sum, in the order the loop accumulates. */
  function Sum(xs: seq<real>): real
  {
    if xs == [] then 0.0 else Sum(xs[..|xs| - 1]) + xs[|xs| - 1]
  }

  /** `avg_psnr / idx`: an empty validation set divides by zero. */
  function Average(xs: seq<real>): (r: Result<real>)
    ensures r.Raise? <==> xs == []
    ensures r.Raise? ==> r.error == ZeroDivisionError
  {
    if xs == [] then Raise(ZeroDivisionError) else Ok(Sum(xs) / |xs| as real)
  }

  /** The metric of one validation pair, each image cropped by `scale` on every side. */
  function SamplePsnr<P>(psnr: (Image<P>, Image<P>) -> real, scale: nat, pair: (Image<P>, Image<P>)): real
  {
    psnr(Crop.BorderCrop(pair.0, scale), Crop.BorderCrop(pair.1, scale))
  }

  function Scores<P>(psnr: (Image<P>, Image<P>) -> real, scale: nat, pairs: seq<(Image<P>, Image<P>)>): (r: seq<real>)
    ensures |r| == |pairs|
    ensures forall i :: 0 <= i < |pairs| ==> r[i] == SamplePsnr(psnr, scale, pairs[i])
  {
    seq(|pairs|, i requires 0 <= i < |pairs| => SamplePsnr(psnr, scale, pairs[i]))
  }

  lemma {:induction false} SumAbove(xs: seq<real>, t: real)
    requires forall i :: 0 <= i < |xs| ==> xs[i] > t
    ensures xs != [] ==> Sum(xs) > (|xs| as real) * t
    ensures Sum(xs) >= (|xs| as real) * t
  {
    if xs != [] {
      SumAbove(xs[..|xs| - 1], t);
    }
  }

  lemma {:induction false} SumAtMost(xs: seq<real>, t: real)
    requires forall i :: 0 <= i < |xs| ==> xs[i] <= t
    ensures Sum(xs) <= (|xs| as real) * t
  {
    if xs != [] {
      SumAtMost(xs[..|xs| - 1], t);
    }
  }

  /** The average lies between the smallest and the largest sample: if every
      image scores above `t` the validation is above `t`, and if none does it is not. */
  lemma AverageBetween(xs: seq<real>, t: real)
    requires xs != []
    ensures (forall i :: 0 <= i < |xs| ==> xs[i] > t) ==> Average(xs).value > t
    ensures (forall i :: 0 <= i < |xs| ==> xs[i] <= t) ==> Average(xs).value <= t
  {
    var n := |xs| as real;
    if forall i :: 0 <= i < |xs| ==> xs[i] > t {
      SumAbove(xs, t);
      assert Average(xs).value * n > t * n;
    }
    if forall i :: 0 <= i < |xs| ==> xs[i] <= t {
      SumAtMost(xs, t);
      assert Average(xs).value * n <= t * n;
    }
  }

  // ----- one validation: best record, then accept or roll back -----

  /** Lines 337-359: the best record moves only on a strict improvement; an
      average above 20 copies the live weights into the snapshot, any other
      average overwrites the live weights with the snapshot. */
  function Validate<W>(s: State<W>, avg: real): (r: State<W>)
    ensures r.live == r.snapshot
    ensures r.step == s.step && r.avgPsnr == Some(avg)
    ensures s.best.psnr <= r.best.psnr && avg <= r.best.psnr
    ensures r.snapshot == (if avg > AcceptThreshold then s.live else s.snapshot)
    ensures r.events == s.events + [Validated(s.step, avg, avg > AcceptThreshold)]
  {
    var accepted := avg > AcceptThreshold;
    s.(best := if avg > s.best.psnr then Best(avg, s.step) else s.best,
       avgPsnr := Some(avg),
       live := if accepted then s.live else s.snapshot,
       snapshot := if accepted then s.live else s.snapshot,
       events := s.events + [Validated(s.step, avg, accepted)])
  }

  /** A second rejection, with no accept since the first, leaves the live
      weights exactly where the first one left them: at the snapshot held
      before the first. */
  lemma RejectTwice<W>(s: State<W>, between: State<W>, a1: real, a2: real)
    requires a1 <= AcceptThreshold && a2 <= AcceptThreshold
    requires between.snapshot == Validate(s, a1).snapshot
    ensures Validate(s, a1).live == s.snapshot
    ensures Validate(between, a2).live == Validate(s, a1).live
    ensures Validate(between, a2).snapshot == s.snapshot
  {
  }

  /** The source's best record on the averages 18.0, 22.0, 19.5, 24.0 at steps
      5, 10, 15, 20: the first, rejected, average still becomes the best. */
  lemma BestRecordExample<W>(w0: W)
    ensures var s1 := Validate(Start(w0, 5), 18.0);
      var s2 := Validate(s1.(step := 10), 22.0);
      var s3 := Validate(s2.(step := 15), 19.5);
      var s4 := Validate(s3.(step := 20), 24.0);
      && s1.best == Best(18.0, 5) && s2.best == Best(22.0, 10)
      && s3.best == Best(22.0, 10) && s4.best == Best(24.0, 20)
      && s1.events[0].accepted == false && s2.events[1].accepted == true
      && s3.events[2].accepted == false && s4.events[3].accepted == true
  {
  }

  // ----- one pass of the batch loop -----

  /** Validation runs on steps divisible by `val_freq`, on rank -1 or 0 only. */
  predicate ValidationDue(cfg: Config, step: int)
    requires cfg.valFreq != 0
  {
    step % cfg.valFreq == 0 && cfg.rank <= 0
  }

  /** Lines 366-370. The modulo comes first, so a zero frequency raises; then
      `rank <= 0 and avg_psnr > 26`, whose right operand is evaluated only on
      rank -1 or 0 and raises while no validation has bound `avg_psnr`. */
  function SaveStage<W>(cfg: Config, epoch: int, s: State<W>): (o: Outcome<W>)
    ensures o.state.events == s.events || o.state.events == s.events + [Saved(epoch, s.step)]
    ensures o.state == s.(events := o.state.events)
    ensures o.error == Some(ZeroDivisionError) <==> cfg.saveFreq == 0
    ensures o.error == Some(UnboundLocalError("avg_psnr")) <==>
      cfg.saveFreq != 0 && s.step % cfg.saveFreq == 0 && cfg.rank <= 0 && s.avgPsnr == None
    ensures o.state.events != s.events <==>
      cfg.saveFreq != 0 && s.step % cfg.saveFreq == 0 && cfg.rank <= 0 && s.avgPsnr.Some? && s.avgPsnr.value > SaveThreshold
  {
    if cfg.saveFreq == 0 then Outcome(s, Some(ZeroDivisionError))
    else if s.step % cfg.saveFreq != 0 || cfg.rank > 0 then Outcome(s, None)
    else match s.avgPsnr
      case None => Outcome(s, Some(UnboundLocalError("avg_psnr")))
      case Some(a) =>
        if a > SaveThreshold then Outcome(s.(events := s.events + [Saved(epoch, s.step)]), None)
        else Outcome(s, None)
  }

  /** Lines 245-370 for a counter value that has already been checked against
      `total_iters`: train, the print-frequency test, validation, checkpoint. */
  function Body<W, P>(cfg: Config, env: Env<W, P>, epoch: int, s: State<W>): Outcome<W>
  {
    var t := s.(live := env.train(s.step, s.live), events := s.events + [Trained(s.step)]);
    if cfg.printFreq == 0 || cfg.valFreq == 0 then Outcome(t, Some(ZeroDivisionError))
    else if ValidationDue(cfg, s.step) then
      match Average(Scores(env.psnr, cfg.scale, env.infer(t.live)))
      case Raise(e) => Outcome(t, Some(e))
      case Ok(avg) => SaveStage(cfg, epoch, Validate(t, avg))
    else SaveStage(cfg, epoch, t)
  }

  /** The pass body as a function of the (already bumped) state. */
  function Pass<W, P>(cfg: Config, env: Env<W, P>, epoch: int): State<W> -> Outcome<W>
  {
    s => Body(cfg, env, epoch, s)
  }

  /** The batch loop with `remaining` batches left and pass body `body`: bump
      the counter, stop once it passes `total_iters`, otherwise run the body and
      stop at the first exception. */
  function Batches<W>(body: State<W> -> Outcome<W>, totalIters: int, s: State<W>, remaining: nat): Outcome<W>
    decreases remaining
  {
    if remaining == 0 then Outcome(s, None)
    else
      var bumped := s.(step := s.step + 1);
      if bumped.step > totalIters then Outcome(bumped, None)
      else
        var o := body(bumped);
        if o.error.Some? then o else Batches(body, totalIters, o.state, remaining - 1)
  }

  /** One epoch of the training loop: `batches` passes of the batch loop. */
  function EpochPass<W, P>(cfg: Config, env: Env<W, P>, batches: nat): (int, State<W>) -> Outcome<W>
  {
    (epoch, s) => Batches(Pass(cfg, env, epoch), cfg.totalIters, s, batches)
  }

  /** The epoch loop over `epoch..lastEpoch` inclusive, each epoch run by `epochBody`. */
  function Epochs<W>(epochBody: (int, State<W>) -> Outcome<W>, epoch: int, lastEpoch: int, s: State<W>): Outcome<W>
    decreases lastEpoch + 1 - epoch
  {
    if epoch > lastEpoch then Outcome(s, None)
    else
      var o := epochBody(epoch, s);
      if o.error.Some? then o else Epochs(epochBody, epoch + 1, lastEpoch, o.state)
  }

  /** The epoch loop from `start`, then the final save on rank -1 or 0. */
  function RunFrom<W>(epochBody: (int, State<W>) -> Outcome<W>, rank: int, start: State<W>, startEpoch: int, totalEpochs: int): Outcome<W>
  {
    var o := Epochs(epochBody, startEpoch, totalEpochs, start);
    if o.error.None? && rank <= 0 then Outcome(o.state.(events := o.state.events + [SavedLatest]), None)
    else o
  }

  /** The whole loop from the start (or resumed) counter, then the final save. */
  function Run<W, P>(cfg: Config, env: Env<W, P>, w0: W, startIter: int, startEpoch: int, totalEpochs: int, batches: nat): Outcome<W>
  {
    RunFrom(EpochPass(cfg, env, batches), cfg.rank, Start(w0, startIter), startEpoch, totalEpochs)
  }

  // ----- what the history determines -----

  /** The best record a run with these events holds: start at (0.0, 0) and move on a strict improvement. */
  function BestOf(events: seq<Event>): Best
  {
    if events == [] then Best(0.0, 0)
    else
      var b := BestOf(events[..|events| - 1]);
      var e := events[|events| - 1];
      if e.Validated? && e.avg > b.psnr then Best(e.avg, e.step) else b
  }

  /** `avg_psnr`: the average of the most recent validation, None before the first. */
  function LastAvg(events: seq<Event>): Option<real>
  {
    if events == [] then None
    else if events[|events| - 1].Validated? then Some(events[|events| - 1].avg)
    else LastAvg(events[..|events| - 1])
  }

  /** The steps trained since the most recent validation. */
  function Pending(events: seq<Event>): seq<int>
  {
    if events == [] then []
    else
      var e := events[|events| - 1];
      if e.Validated? then []
      else if e.Trained? then Pending(events[..|events| - 1]) + [e.step]
      else Pending(events[..|events| - 1])
  }

  /** The weights reached from `w` by training on `steps` in order. */
  function Replay<W>(train: (int, W) -> W, w: W, steps: seq<int>): W
  {
    if steps == [] then w else train(steps[|steps| - 1], Replay(train, w, steps[..|steps| - 1]))
  }

  /** The steps trained, in order. */
  function TrainedSteps(events: seq<Event>): seq<int>
  {
    if events == [] then []
    else TrainedSteps(events[..|events| - 1]) + (if events[|events| - 1].Trained? then [events[|events| - 1].step] else [])
  }

  /** `[lo, lo + 1, ..., hi - 1]`. */
  function Range(lo: int, hi: int): seq<int>
    decreases hi - lo
  {
    if hi <= lo then [] else Range(lo, hi - 1) + [hi - 1]
  }

  predicate IsAccept(e: Event)
  {
    e.Validated? && e.accepted
  }

  /** Event `i` is an accepted validation. */
  predicate AcceptedAt(events: seq<Event>, i: nat)
    requires i < |events|
  {
    IsAccept(events[i])
  }

  /** No validation from position `k` on was accepted. */
  ghost predicate NoAcceptFrom(events: seq<Event>, k: nat)
  {
    forall i: nat :: k <= i < |events| ==> !AcceptedAt(events, i)
  }

  /** If event `i` is a checkpoint, it was written on rank -1 or 0, on a step
      divisible by the checkpoint frequency, and after a validation whose
      average, the most recent one at that point, was above 26. */
  predicate SaveJustifiedAt(cfg: Config, events: seq<Event>, i: nat)
    requires i < |events|
  {
    events[i].Saved? ==>
      && cfg.rank <= 0 && cfg.saveFreq != 0 && events[i].step % cfg.saveFreq == 0
      && LastAvg(events[..i]).Some? && LastAvg(events[..i]).value > SaveThreshold
  }

  /** Every checkpoint from position `k` on is justified. */
  ghost predicate SavesJustified(cfg: Config, events: seq<Event>, k: nat)
  {
    forall i: nat :: k <= i < |events| ==> SaveJustifiedAt(cfg, events, i)
  }

  ghost predicate Extends(old_: seq<Event>, new_: seq<Event>)
  {
    |old_| <= |new_| && new_[..|old_|] == old_
  }

  /** The state agrees with its history: the best record and `avg_psnr` are
      those the events determine, and the live weights are the snapshot trained
      on exactly the steps since the last validation (never a mix). */
  ghost predicate Coherent<W, P>(env: Env<W, P>, s: State<W>)
  {
    && s.best == BestOf(s.events)
    && s.avgPsnr == LastAvg(s.events)
    && s.live == Replay(env.train, s.snapshot, Pending(s.events))
  }

  /** What any stretch of the loop guarantees between a state `s` and a later state `r`. */
  ghost predicate Progress<W>(cfg: Config, s: State<W>, r: State<W>)
  {
    && Extends(s.events, r.events)
    && s.step <= r.step
    && s.best.psnr <= r.best.psnr
    && (NoAcceptFrom(r.events, |s.events|) ==> r.snapshot == s.snapshot)
    && SavesJustified(cfg, r.events, |s.events|)
  }
}
