/** The training script's main loop as it runs: one object holding the loop's
    variables (`current_step`, the best record, `avg_psnr`, the live weights,
    `prev_state_dict`) that its methods update in place. Every method is proved
    to reach exactly the state, and raise exactly the exception, that the pure
    specification in module Rollback prescribes. */
module Training {
  import opened Common
  import Rollback
  import Crop

  /** Lines 272-335: accumulate the cropped per-image metric over the
      validation set in loader order, then divide by the number of images;
      an empty validation set divides by zero. */
  method AveragePsnr<P>(pairs: seq<(Rollback.Image<P>, Rollback.Image<P>)>, psnr: (Rollback.Image<P>, Rollback.Image<P>) -> real, scale: nat)
    returns (r: Result<real>)
    ensures r == Rollback.Average(Rollback.Scores(psnr, scale, pairs))
  {
    ghost var scores := Rollback.Scores(psnr, scale, pairs);
    var acc := 0.0;
    var idx := 0;
    while idx < |pairs|
      invariant 0 <= idx <= |pairs|
      invariant acc == Rollback.Sum(scores[..idx])
    {
      var sr := Crop.BorderCrop(pairs[idx].0, scale);
      var gt := Crop.BorderCrop(pairs[idx].1, scale);
      acc := acc + psnr(sr, gt);
      assert scores[idx] == Rollback.SamplePsnr(psnr, scale, pairs[idx]) == psnr(sr, gt);
      ghost var prefix := scores[..idx + 1];
      assert prefix[..idx] == scores[..idx] && prefix[idx] == scores[idx];
      assert Rollback.Sum(prefix) == Rollback.Sum(scores[..idx]) + scores[idx];
      idx := idx + 1;
    }
    assert scores[..idx] == scores;
    if idx == 0 {
      r := Raise(ZeroDivisionError);
    } else {
      r := Ok(acc / idx as real);
    }
  }

  class Trainer<W, P> {
    const cfg: Rollback.Config
    const env: Rollback.Env<W, P>
    var step: int
    var best: Rollback.Best
    var avgPsnr: Option<real>
    var live: W
    var snapshot: W
    ghost var events: seq<Rollback.Event>

    /** The loop variables, as the specification's state. */
    ghost function Current(): Rollback.State<W>
      reads this
    {
      Rollback.State(step, best, avgPsnr, live, snapshot, events)
    }

    /** Lines 216-235: the counter starts at 0, or at the resumed `iter`; the
        best record starts at (0.0, 0); `prev_state_dict` is a copy of the
        network's weights. */
    constructor(cfg: Rollback.Config, env: Rollback.Env<W, P>, w0: W, startIter: int)
      ensures this.cfg == cfg && this.env == env
      ensures Current() == Rollback.Start(w0, startIter)
    {
      this.cfg := cfg;
      this.env := env;
      step := startIter;
      best := Rollback.Best(0.0, 0);
      avgPsnr := None;
      live := w0;
      snapshot := w0;
      events := [];
    }

    /** Lines 337-359: update the best record on a strict improvement, then
        keep the weights (average above 20) or restore the snapshot. */
    method Validate(avg: real)
      modifies this
      ensures Current() == Rollback.Validate(old(Current()), avg)
    {
      if avg > best.psnr {
        best := Rollback.Best(avg, step);
      }
      avgPsnr := Some(avg);
      var accepted := avg > Rollback.AcceptThreshold;
      if accepted {
        snapshot := live;
      } else {
        live := snapshot;
      }
      events := events + [Rollback.Validated(step, avg, accepted)];
    }

    /** Lines 366-370: the checkpoint test. */
    method SaveCheckpoint(epoch: int) returns (err: Option<PyError>)
      modifies this
      ensures Rollback.Outcome(Current(), err) == Rollback.SaveStage(cfg, epoch, old(Current()))
    {
      err := None;
      if cfg.saveFreq == 0 {
        err := Some(ZeroDivisionError);
      } else if step % cfg.saveFreq == 0 && cfg.rank <= 0 {
        match avgPsnr
        case None =>
          err := Some(UnboundLocalError("avg_psnr"));
        case Some(a) =>
          if a > Rollback.SaveThreshold {
            events := events + [Rollback.Saved(epoch, step)];
          }
      }
    }

    /** Lines 245-370 after the counter test: train on this step's batch, the
        print-frequency test, validation when due, then the checkpoint test. */
    method Pass(epoch: int) returns (err: Option<PyError>)
      modifies this
      ensures Rollback.Outcome(Current(), err) == Rollback.Body(cfg, env, epoch, old(Current()))
    {
      live := env.train(step, live);
      events := events + [Rollback.Trained(step)];
      if cfg.printFreq == 0 || cfg.valFreq == 0 {
        return Some(ZeroDivisionError);
      }
      if step % cfg.valFreq == 0 && cfg.rank <= 0 {
        var r := AveragePsnr(env.infer(live), env.psnr, cfg.scale);
        match r
        case Raise(e) =>
          return Some(e);
        case Ok(avg) =>
          Validate(avg);
      }
      err := SaveCheckpoint(epoch);
    }

    /** Lines 240-370: one epoch, at most `batches` batches; the counter is
        bumped before it is compared with `total_iters`, so the batch that
        breaks out still moves it. */
    method Epoch(epoch: int, batches: nat) returns (err: Option<PyError>)
      modifies this
      ensures Rollback.Outcome(Current(), err) == Rollback.Batches(Rollback.Pass(cfg, env, epoch), cfg.totalIters, old(Current()), batches)
    {
      ghost var body := Rollback.Pass(cfg, env, epoch);
      ghost var goal := Rollback.Batches(body, cfg.totalIters, Current(), batches);
      var remaining: nat := batches;
      while remaining > 0
        invariant remaining <= batches
        invariant Rollback.Batches(body, cfg.totalIters, Current(), remaining) == goal
        decreases remaining
      {
        ghost var s0 := Current();
        step := step + 1;
        assert Current() == s0.(step := s0.step + 1);
        if step > cfg.totalIters {
          assert Rollback.Batches(body, cfg.totalIters, s0, remaining) == Rollback.Outcome(Current(), None);
          return None;
        }
        ghost var bumped := Current();
        err := Pass(epoch);
        ghost var o := Rollback.Outcome(Current(), err);
        assert o == body(bumped);
        assert Rollback.Batches(body, cfg.totalIters, s0, remaining)
          == if o.error.Some? then o else Rollback.Batches(body, cfg.totalIters, o.state, remaining - 1);
        if err.Some? {
          return;
        }
        remaining := remaining - 1;
      }
      err := None;
    }

    /** Lines 237-375: the epoch loop over `range(start_epoch, total_epochs + 1)`,
        then the final save on rank -1 or 0. */
    method Train(startEpoch: int, totalEpochs: int, batches: nat) returns (err: Option<PyError>)
      modifies this
      ensures Rollback.Outcome(Current(), err)
        == Rollback.RunFrom(Rollback.EpochPass(cfg, env, batches), cfg.rank, old(Current()), startEpoch, totalEpochs)
    {
      ghost var epochBody := Rollback.EpochPass(cfg, env, batches);
      ghost var goal := Rollback.Epochs(epochBody, startEpoch, totalEpochs, Current());
      var epoch := startEpoch;
      while epoch <= totalEpochs
        invariant Rollback.Epochs(epochBody, epoch, totalEpochs, Current()) == goal
        decreases totalEpochs + 1 - epoch
      {
        ghost var s0 := Current();
        err := Epoch(epoch, batches);
        ghost var o := Rollback.Outcome(Current(), err);
        assert o == epochBody(epoch, s0);
        assert Rollback.Epochs(epochBody, epoch, totalEpochs, s0)
          == if o.error.Some? then o else Rollback.Epochs(epochBody, epoch + 1, totalEpochs, o.state);
        if err.Some? {
          return;
        }
        epoch := epoch + 1;
      }
      err := None;
      if cfg.rank <= 0 {
        events := events + [Rollback.SavedLatest];
      }
    }
  }

  /** The whole script from a fresh start or a resume: the trainer's final
      state and exception are those of the specification's run. */
  method Launch<W, P>(cfg: Rollback.Config, env: Rollback.Env<W, P>, w0: W, startIter: int, startEpoch: int, totalEpochs: int, batches: nat)
    returns (t: Trainer<W, P>, err: Option<PyError>)
    ensures Rollback.Outcome(t.Current(), err) == Rollback.Run(cfg, env, w0, startIter, startEpoch, totalEpochs, batches)
  {
    t := new Trainer(cfg, env, w0, startIter);
    err := t.Train(startEpoch, totalEpochs, batches);
  }
}
