/** What the training loop guarantees over a whole run, proved about the pure
    specification in module Rollback. */
module RunProperties {
  import opened Common
  import opened Rollback
  import Sizing

  function Min(a: int, b: int): int { if a <= b then a else b }
  function Max(a: int, b: int): int { if a <= b then b else a }

  // ----- the history functions -----

  /** The best record is the first strict maximum of the validation averages:
      no average exceeds it, it is 0.0 with step 0 until some average exceeds
      0.0, and otherwise it is an average logged at step `iter` that every
      earlier average stays strictly below. */
  lemma {:induction false} BestOfIsFirstMaximum(events: seq<Event>)
    ensures var b := BestOf(events);
      && 0.0 <= b.psnr
      && (b.psnr == 0.0 ==> b.iter == 0)
      && (forall i :: 0 <= i < |events| && events[i].Validated? ==> events[i].avg <= b.psnr)
      && (b.psnr > 0.0 ==> exists i :: FirstBest(events, i, b))
  {
    if events != [] {
      var init := events[..|events| - 1];
      var e := events[|events| - 1];
      BestOfIsFirstMaximum(init);
      var b0 := BestOf(init);
      var b := BestOf(events);
      assert forall i :: 0 <= i < |init| ==> events[i] == init[i];
      if e.Validated? && e.avg > b0.psnr {
        assert FirstBest(events, |events| - 1, b);
      } else if b.psnr > 0.0 {
        var i :| FirstBest(init, i, b0);
        assert FirstBest(events, i, b);
      }
    }
  }

  /** Event `i` is a validation at step `b.iter` with average `b.psnr`, and every
      earlier validation average is strictly below it. */
  ghost predicate FirstBest(events: seq<Event>, i: int, b: Best)
  {
    && 0 <= i < |events| && events[i].Validated?
    && events[i].step == b.iter && events[i].avg == b.psnr
    && forall j :: 0 <= j < i && events[j].Validated? ==> events[j].avg < b.psnr
  }

  lemma {:induction false} RangeSplit(a: int, b: int, c: int)
    requires a <= b <= c
    ensures Range(a, b) + Range(b, c) == Range(a, c)
    decreases c - b
  {
    if b < c {
      RangeSplit(a, b, c - 1);
      assert Range(a, c) == Range(a, c - 1) + [c - 1];
    }
  }

  lemma RangeCons(x: seq<int>, a: int, c: int)
    requires a < c
    ensures x + [a] + Range(a + 1, c) == x + Range(a, c)
  {
    RangeSplit(a, a + 1, c);
    assert Range(a, a + 1) == [a];
  }

  /** Training on `a` and then on `a + 1 .. hi - 1` is training on `a .. hi - 1`. */
  lemma TrainedShift(before: seq<int>, mid: seq<int>, after: seq<int>, a: int, hi: int)
    requires a < hi && mid == before + [a] && after == mid + Range(a + 1, hi)
    ensures after == before + Range(a, hi)
  {
    RangeCons(before, a, hi);
  }

  // ----- one stage at a time -----

  lemma ProgressRefl<W>(cfg: Config, s: State<W>)
    ensures Progress(cfg, s, s)
  {
    assert s.events[..|s.events|] == s.events;
  }

  lemma ProgressTrans<W>(cfg: Config, s: State<W>, m: State<W>, r: State<W>)
    requires Progress(cfg, s, m) && Progress(cfg, m, r)
    ensures Progress(cfg, s, r)
  {
    var es, em, er := s.events, m.events, r.events;
    assert er[..|es|] == er[..|em|][..|es|];
    forall i: nat | |es| <= i < |er|
      ensures SaveJustifiedAt(cfg, er, i)
    {
      if i < |em| {
        assert er[..|em|][i] == er[i];
        assert er[..i] == er[..|em|][..i];
        assert SaveJustifiedAt(cfg, em, i);
      } else {
        assert SaveJustifiedAt(cfg, er, i);
      }
    }
    if NoAcceptFrom(er, |es|) {
      forall i: nat | |es| <= i < |em|
        ensures !AcceptedAt(em, i)
      {
        assert er[..|em|][i] == er[i];
        assert !AcceptedAt(er, i);
      }
    }
  }

  /** Training one step keeps the state coherent and logs that step. */
  lemma TrainStage<W, P>(cfg: Config, env: Env<W, P>, s: State<W>)
    requires Coherent(env, s)
    ensures var t := s.(live := env.train(s.step, s.live), events := s.events + [Trained(s.step)]);
      && Coherent(env, t) && Progress(cfg, s, t)
      && TrainedSteps(t.events) == TrainedSteps(s.events) + [s.step]
  {
    var t := s.(live := env.train(s.step, s.live), events := s.events + [Trained(s.step)]);
    assert t.events[..|s.events|] == s.events;
    assert Pending(t.events) == Pending(s.events) + [s.step];
    var p := Pending(t.events);
    assert p[..|p| - 1] == Pending(s.events);
  }

  lemma ValidateStage<W, P>(cfg: Config, env: Env<W, P>, t: State<W>, avg: real)
    requires Coherent(env, t)
    ensures var v := Validate(t, avg);
      && Coherent(env, v) && Progress(cfg, t, v)
      && TrainedSteps(v.events) == TrainedSteps(t.events)
  {
    var v := Validate(t, avg);
    var n := |t.events|;
    assert v.events[..n] == t.events;
    assert SaveJustifiedAt(cfg, v.events, n);
    if !AcceptedAt(v.events, n) {
      assert v.snapshot == t.snapshot;
    }
  }

  lemma SaveStageFacts<W, P>(cfg: Config, env: Env<W, P>, epoch: int, v: State<W>)
    requires Coherent(env, v)
    ensures var o := SaveStage(cfg, epoch, v);
      && Coherent(env, o.state) && Progress(cfg, v, o.state)
      && TrainedSteps(o.state.events) == TrainedSteps(v.events)
  {
    var o := SaveStage(cfg, epoch, v);
    if o.state.events != v.events {
      var es := o.state.events;
      assert es[..|v.events|] == v.events;
      assert es[|v.events|] == Saved(epoch, v.step);
    } else {
      ProgressRefl(cfg, v);
    }
  }

  /** One pass of the batch loop keeps the state coherent and moves forward. */
  lemma BodyStage<W, P>(cfg: Config, env: Env<W, P>, epoch: int, s: State<W>)
    requires Coherent(env, s)
    ensures var o := Body(cfg, env, epoch, s);
      Coherent(env, o.state) && Progress(cfg, s, o.state)
  {
    var t := s.(live := env.train(s.step, s.live), events := s.events + [Trained(s.step)]);
    TrainStage(cfg, env, s);
    if cfg.printFreq != 0 && cfg.valFreq != 0 {
      if ValidationDue(cfg, s.step) {
        var r := Average(Scores(env.psnr, cfg.scale, env.infer(t.live)));
        if r.Ok? {
          var v := Validate(t, r.value);
          ValidateStage(cfg, env, t, r.value);
          SaveStageFacts(cfg, env, epoch, v);
          ProgressTrans(cfg, s, t, v);
          ProgressTrans(cfg, s, v, SaveStage(cfg, epoch, v).state);
        }
      } else {
        SaveStageFacts(cfg, env, epoch, t);
        ProgressTrans(cfg, s, t, SaveStage(cfg, epoch, t).state);
      }
    }
  }

  lemma TrainedSnoc(events: seq<Event>, e: Event)
    ensures TrainedSteps(events + [e]) == TrainedSteps(events) + (if e.Trained? then [e.step] else [])
  {
    assert (events + [e])[..|events|] == events;
  }

  /** The checkpoint stage neither moves the counter nor trains. */
  lemma SaveStageCounts<W>(cfg: Config, epoch: int, v: State<W>)
    ensures var o := SaveStage(cfg, epoch, v);
      o.state.step == v.step && TrainedSteps(o.state.events) == TrainedSteps(v.events)
  {
    TrainedSnoc(v.events, Saved(epoch, v.step));
  }

  /** One pass of the batch loop does not touch the counter and trains exactly
      once, on the current counter value. */
  lemma BodyCounts<W, P>(cfg: Config, env: Env<W, P>, epoch: int, s: State<W>)
    ensures var o := Body(cfg, env, epoch, s);
      && o.state.step == s.step
      && TrainedSteps(o.state.events) == TrainedSteps(s.events) + [s.step]
  {
    var t := s.(live := env.train(s.step, s.live), events := s.events + [Trained(s.step)]);
    TrainedSnoc(s.events, Trained(s.step));
    if cfg.printFreq != 0 && cfg.valFreq != 0 {
      if ValidationDue(cfg, s.step) {
        var r := Average(Scores(env.psnr, cfg.scale, env.infer(t.live)));
        if r.Ok? {
          var v := Validate(t, r.value);
          TrainedSnoc(t.events, Validated(s.step, r.value, r.value > AcceptThreshold));
          SaveStageCounts(cfg, epoch, v);
        }
      } else {
        SaveStageCounts(cfg, epoch, t);
      }
    }
  }

  /** Validation runs exactly on steps divisible by `val_freq` on rank -1 or 0;
      an empty validation set then raises, otherwise the validation is logged
      with the average of the cropped per-image metric. */
  lemma ValidationRule<W, P>(cfg: Config, env: Env<W, P>, epoch: int, s: State<W>)
    requires cfg.printFreq != 0 && cfg.valFreq != 0
    ensures var o := Body(cfg, env, epoch, s);
      var pairs := env.infer(env.train(s.step, s.live));
      && |o.state.events| >= |s.events| + 1
      && (!ValidationDue(cfg, s.step) ==> forall i :: |s.events| <= i < |o.state.events| ==> !o.state.events[i].Validated?)
      && (ValidationDue(cfg, s.step) && pairs == [] ==> o.error == Some(ZeroDivisionError))
      && (ValidationDue(cfg, s.step) && pairs != [] ==>
            var avg := Average(Scores(env.psnr, cfg.scale, pairs)).value;
            o.state.events[|s.events| + 1] == Validated(s.step, avg, avg > AcceptThreshold))
  {
  }

  /** A `print_freq` or `val_freq` of 0 makes the first modulo test of the pass
      raise ZeroDivisionError on every rank, after the batch was trained and
      before any validation or checkpoint. */
  lemma ZeroFrequency<W, P>(cfg: Config, env: Env<W, P>, epoch: int, s: State<W>)
    requires cfg.printFreq == 0 || cfg.valFreq == 0
    ensures var o := Body(cfg, env, epoch, s);
      && o.error == Some(ZeroDivisionError)
      && o.state == s.(live := env.train(s.step, s.live), events := s.events + [Trained(s.step)])
  {
  }

  /** Every pass of the batch loop keeps the state coherent and moves it forward. */
  lemma PassKeepsCoherent<W(!new), P>(cfg: Config, env: Env<W, P>, epoch: int)
    ensures KeepsCoherent(cfg, env, Pass(cfg, env, epoch))
  {
    forall x: State<W>
      ensures KeepsCoherentAt(cfg, env, Pass(cfg, env, epoch), x)
    {
      if Coherent(env, x) {
        BodyStage(cfg, env, epoch, x);
      }
    }
  }

  /** Every pass of the batch loop leaves the counter alone and trains once, on the counter value. */
  lemma PassTrainsOnce<W(!new), P>(cfg: Config, env: Env<W, P>, epoch: int)
    ensures KeepsStep(Pass(cfg, env, epoch)) && LogsStep(Pass(cfg, env, epoch), TrainedSteps)
  {
    forall x: State<W>
      ensures KeepsStepAt(Pass(cfg, env, epoch), x) && LogsStepAt(Pass(cfg, env, epoch), TrainedSteps, x)
    {
      BodyCounts(cfg, env, epoch, x);
    }
  }

  // ----- the batch loop, for any pass body -----
  // Each hypothesis about a body is a quantifier over a named per-state
  // predicate, so that it is instantiated only where a proof names that state.

  ghost predicate KeepsCoherentAt<W, P>(cfg: Config, env: Env<W, P>, body: State<W> -> Outcome<W>, x: State<W>)
  {
    Coherent(env, x) ==> Coherent(env, body(x).state) && Progress(cfg, x, body(x).state)
  }

  /** `body` keeps every coherent state coherent and moves it forward. */
  ghost predicate KeepsCoherent<W(!new), P>(cfg: Config, env: Env<W, P>, body: State<W> -> Outcome<W>)
  {
    forall x: State<W> :: KeepsCoherentAt(cfg, env, body, x)
  }

  ghost predicate KeepsStepAt<W>(body: State<W> -> Outcome<W>, x: State<W>)
  {
    body(x).state.step == x.step
  }

  /** `body` leaves the counter alone. */
  ghost predicate KeepsStep<W(!new)>(body: State<W> -> Outcome<W>)
  {
    forall x: State<W> :: KeepsStepAt(body, x)
  }

  ghost predicate LogsStepAt<W>(body: State<W> -> Outcome<W>, log: seq<Event> -> seq<int>, x: State<W>)
  {
    log(body(x).state.events) == log(x.events) + [x.step]
  }

  /** `body` adds exactly the counter value to the log `log` reads off the events. */
  ghost predicate LogsStep<W(!new)>(body: State<W> -> Outcome<W>, log: seq<Event> -> seq<int>)
  {
    forall x: State<W> :: LogsStepAt(body, log, x)
  }

  /** Bumping the counter changes nothing else. */
  lemma BumpStage<W, P>(cfg: Config, env: Env<W, P>, s: State<W>)
    requires Coherent(env, s)
    ensures Coherent(env, s.(step := s.step + 1)) && Progress(cfg, s, s.(step := s.step + 1))
  {
    ProgressRefl(cfg, s);
  }

  /** Every stretch of the batch loop keeps the state coherent and moves forward. */
  lemma {:induction false} BatchesKeep<W(!new), P>(cfg: Config, env: Env<W, P>, body: State<W> -> Outcome<W>, s: State<W>, k: nat)
    requires KeepsCoherent(cfg, env, body) && Coherent(env, s)
    ensures var o := Batches(body, cfg.totalIters, s, k);
      Coherent(env, o.state) && Progress(cfg, s, o.state)
    decreases k
  {
    var o := Batches(body, cfg.totalIters, s, k);
    if k == 0 {
      assert o.state == s;
      ProgressRefl(cfg, s);
    } else {
      var bumped := s.(step := s.step + 1);
      BumpStage(cfg, env, s);
      if bumped.step > cfg.totalIters {
        assert o.state == bumped;
      } else {
        var b := body(bumped);
        assert KeepsCoherentAt(cfg, env, body, bumped);
        ProgressTrans(cfg, s, bumped, b.state);
        if b.error.None? {
          var rest := Batches(body, cfg.totalIters, b.state, k - 1);
          BatchesKeep(cfg, env, body, b.state, k - 1);
          ProgressTrans(cfg, s, b.state, rest.state);
        }
      }
    }
  }

  /** The counter after one epoch of `k` batches that started at `c`: `k` higher
      when that stays within `total_iters`, otherwise one past `max(c, total_iters)`,
      because the bump that passes `total_iters` happens before the break. */
  function EpochEnd(c: int, totalIters: int, k: nat): int
  {
    if k == 0 then c else if c + k <= totalIters then c + k else Max(c, totalIters) + 1
  }

  /** One more batch within `total_iters` moves the start of the remaining epoch by one. */
  lemma EpochEndStep(c: int, totalIters: int, k: nat)
    requires 0 < k && c + 1 <= totalIters
    ensures EpochEnd(c + 1, totalIters, k - 1) == EpochEnd(c, totalIters, k)
  {
  }

  /** The counter after one pass of the batch loop. */
  lemma {:induction false} BatchesCounter<W(!new)>(body: State<W> -> Outcome<W>, totalIters: int, s: State<W>, k: nat)
    requires KeepsStep(body)
    ensures var o := Batches(body, totalIters, s, k);
      o.error.None? ==> o.state.step == EpochEnd(s.step, totalIters, k)
    decreases k
  {
    var o := Batches(body, totalIters, s, k);
    var c := s.step;
    if k == 0 {
      assert o.state == s;
    } else if c + 1 > totalIters {
      assert o.state.step == c + 1;
      assert EpochEnd(c, totalIters, k) == c + 1;
    } else {
      var b := body(s.(step := c + 1));
      if b.error.None? {
        assert KeepsStepAt(body, s.(step := c + 1));
        BatchesCounter(body, totalIters, b.state, k - 1);
        EpochEndStep(c, totalIters, k);
      } else {
        assert o == b;
      }
    }
  }

  /** One pass of the batch loop logs exactly the counter values
      `step + 1 .. min(step + k, total_iters)`, in order. */
  lemma {:induction false} BatchesTrained<W(!new)>(body: State<W> -> Outcome<W>, log: seq<Event> -> seq<int>, totalIters: int, s: State<W>, k: nat)
    requires KeepsStep(body) && LogsStep(body, log)
    ensures var o := Batches(body, totalIters, s, k);
      o.error.None? ==> log(o.state.events) == log(s.events) + Range(s.step + 1, Min(s.step + k, totalIters) + 1)
    decreases k
  {
    var o := Batches(body, totalIters, s, k);
    var c := s.step;
    var hi := Min(c + k, totalIters) + 1;
    if k == 0 {
      assert o.state == s;
      assert Range(c + 1, hi) == [];
    } else if c + 1 > totalIters {
      assert o.state.events == s.events;
      assert Range(c + 1, hi) == [];
    } else {
      var b := body(s.(step := c + 1));
      if b.error.None? {
        var rest := Batches(body, totalIters, b.state, k - 1);
        assert KeepsStepAt(body, s.(step := c + 1));
        assert LogsStepAt(body, log, s.(step := c + 1));
        BatchesTrained(body, log, totalIters, b.state, k - 1);
        if rest.error.None? {
          assert Min(c + 1 + (k - 1), totalIters) + 1 == hi;
          TrainedShift(log(s.events), log(b.state.events), log(rest.state.events), c + 1, hi);
        }
      } else {
        assert o == b;
      }
    }
  }

  // ----- the epoch loop, for any epoch body -----

  ghost predicate EpochKeepsCoherentAt<W, P>(cfg: Config, env: Env<W, P>, epochBody: (int, State<W>) -> Outcome<W>, e: int, x: State<W>)
  {
    Coherent(env, x) ==> Coherent(env, epochBody(e, x).state) && Progress(cfg, x, epochBody(e, x).state)
  }

  /** `epochBody` keeps every coherent state coherent and moves it forward. */
  ghost predicate EpochKeepsCoherent<W(!new), P>(cfg: Config, env: Env<W, P>, epochBody: (int, State<W>) -> Outcome<W>)
  {
    forall e: int, x: State<W> :: EpochKeepsCoherentAt(cfg, env, epochBody, e, x)
  }

  ghost predicate EpochTrainsAt<W>(totalIters: int, k: nat, epochBody: (int, State<W>) -> Outcome<W>, log: seq<Event> -> seq<int>, e: int, x: State<W>)
  {
    epochBody(e, x).error.None? ==>
      && epochBody(e, x).state.step == EpochEnd(x.step, totalIters, k)
      && log(epochBody(e, x).state.events) == log(x.events) + Range(x.step + 1, Min(x.step + k, totalIters) + 1)
  }

  /** `epochBody` is `k` batches of the batch loop as far as the counter and the log go. */
  ghost predicate EpochTrains<W(!new)>(totalIters: int, k: nat, epochBody: (int, State<W>) -> Outcome<W>, log: seq<Event> -> seq<int>)
  {
    forall e: int, x: State<W> :: EpochTrainsAt(totalIters, k, epochBody, log, e, x)
  }

  ghost predicate EpochIdleAt<W>(totalIters: int, epochBody: (int, State<W>) -> Outcome<W>, e: int, x: State<W>)
  {
    x.step >= totalIters ==> epochBody(e, x) == Outcome(x.(step := x.step + 1), None)
  }

  /** Once the counter has reached `total_iters`, `epochBody` only bumps it. */
  ghost predicate EpochIdle<W(!new)>(totalIters: int, epochBody: (int, State<W>) -> Outcome<W>)
  {
    forall e: int, x: State<W> :: EpochIdleAt(totalIters, epochBody, e, x)
  }

  /** Every epoch of the training loop keeps the state coherent and moves it forward. */
  lemma EpochPassKeepsCoherent<W(!new), P>(cfg: Config, env: Env<W, P>, batches: nat)
    ensures EpochKeepsCoherent(cfg, env, EpochPass(cfg, env, batches))
  {
    forall e: int, x: State<W>
      ensures EpochKeepsCoherentAt(cfg, env, EpochPass(cfg, env, batches), e, x)
    {
      if Coherent(env, x) {
        PassKeepsCoherent(cfg, env, e);
        BatchesKeep(cfg, env, Pass(cfg, env, e), x, batches);
      }
    }
  }

  /** Every epoch of the training loop moves the counter to `EpochEnd` and
      trains on the values it passes within `total_iters`. */
  lemma EpochPassTrains<W(!new), P>(cfg: Config, env: Env<W, P>, batches: nat)
    ensures EpochTrains(cfg.totalIters, batches, EpochPass(cfg, env, batches), TrainedSteps)
  {
    forall e: int, x: State<W>
      ensures EpochTrainsAt(cfg.totalIters, batches, EpochPass(cfg, env, batches), TrainedSteps, e, x)
    {
      PassTrainsOnce(cfg, env, e);
      BatchesCounter(Pass(cfg, env, e), cfg.totalIters, x, batches);
      BatchesTrained(Pass(cfg, env, e), TrainedSteps, cfg.totalIters, x, batches);
    }
  }

  /** With at least one batch per epoch, an epoch that starts at or past
      `total_iters` only bumps the counter. */
  lemma EpochPassIdle<W(!new), P>(cfg: Config, env: Env<W, P>, batches: nat)
    requires batches > 0
    ensures EpochIdle(cfg.totalIters, EpochPass(cfg, env, batches))
  {
    forall e: int, x: State<W>
      ensures EpochIdleAt(cfg.totalIters, EpochPass(cfg, env, batches), e, x)
    {
    }
  }

  /** The number of epochs in `range(epoch, last + 1)`. */
  function EpochsLeft(epoch: int, last: int): nat
  {
    if last < epoch then 0 else last + 1 - epoch
  }

  /** The whole epoch loop keeps the state coherent and moves forward. */
  lemma {:induction false} EpochsKeep<W(!new), P>(cfg: Config, env: Env<W, P>, epochBody: (int, State<W>) -> Outcome<W>, epoch: int, last: int, s: State<W>)
    requires EpochKeepsCoherent(cfg, env, epochBody) && Coherent(env, s)
    ensures var o := Epochs(epochBody, epoch, last, s);
      Coherent(env, o.state) && Progress(cfg, s, o.state)
    decreases last + 1 - epoch
  {
    var o := Epochs(epochBody, epoch, last, s);
    ProgressRefl(cfg, s);
    if epoch <= last {
      var b := epochBody(epoch, s);
      assert EpochKeepsCoherentAt(cfg, env, epochBody, epoch, s);
      if b.error.None? {
        EpochsKeep(cfg, env, epochBody, epoch + 1, last, b.state);
        ProgressTrans(cfg, s, b.state, o.state);
      }
    }
  }

  /** One epoch of `k` batches from counter `c`, followed by `rest` more
      batches, trains the same counter values as `k + rest` batches from `c`. */
  lemma EpochRanges(c: int, T: int, k: nat, rest: int)
    requires 0 <= rest
    ensures var e := EpochEnd(c, T, k);
      Range(c + 1, Min(c + k, T) + 1) + Range(e + 1, Min(e + rest, T) + 1) == Range(c + 1, Min(c + k + rest, T) + 1)
  {
    var e := EpochEnd(c, T, k);
    if k == 0 {
      assert Range(c + 1, Min(c, T) + 1) == [];
    } else if c + k <= T {
      RangeSplit(c + 1, c + k + 1, Min(c + k + rest, T) + 1);
    } else {
      assert Range(e + 1, Min(e + rest, T) + 1) == [];
    }
  }

  lemma LogConcat(x: seq<int>, y: seq<int>, z: seq<int>, r1: seq<int>, r2: seq<int>)
    requires y == x + r1 && z == y + r2
    ensures z == x + (r1 + r2)
  {
  }

  /** `n * k`, by repeated addition, so that the epoch induction stays linear. */
  function Span(n: nat, k: nat): nat
  {
    if n == 0 then 0 else Span(n - 1, k) + k
  }

  lemma {:induction false} SpanIsProduct(n: nat, k: nat)
    ensures Span(n, k) == n * k
  {
    if n > 0 {
      SpanIsProduct(n - 1, k);
      assert n * k == (n - 1) * k + k;
    }
  }

  lemma {:induction false} EpochsCountSpan<W(!new)>(totalIters: int, k: nat, epochBody: (int, State<W>) -> Outcome<W>, log: seq<Event> -> seq<int>, epoch: int, last: int, s: State<W>)
    requires EpochTrains(totalIters, k, epochBody, log)
    ensures var o := Epochs(epochBody, epoch, last, s);
      o.error.None? ==>
        log(o.state.events) == log(s.events)
          + Range(s.step + 1, Min(s.step + Span(EpochsLeft(epoch, last), k), totalIters) + 1)
    decreases last + 1 - epoch
  {
    var o := Epochs(epochBody, epoch, last, s);
    var c, T := s.step, totalIters;
    if epoch > last {
      assert o.state == s;
      assert Range(c + 1, Min(c + Span(0, k), T) + 1) == [];
    } else {
      var b := epochBody(epoch, s);
      if b.error.None? {
        var rest := Epochs(epochBody, epoch + 1, last, b.state);
        assert o == rest;
        EpochsCountSpan(totalIters, k, epochBody, log, epoch + 1, last, b.state);
        if rest.error.None? {
          var n := EpochsLeft(epoch, last);
          assert EpochsLeft(epoch + 1, last) == n - 1;
          var more := Span(n - 1, k);
          var e := EpochEnd(c, T, k);
          assert EpochTrainsAt(totalIters, k, epochBody, log, epoch, s);
          var first, second := Range(c + 1, Min(c + k, T) + 1), Range(e + 1, Min(e + more, T) + 1);
          assert log(b.state.events) == log(s.events) + first;
          assert log(rest.state.events) == log(b.state.events) + second;
          EpochRanges(c, T, k, more);
          assert c + Span(n, k) == c + k + more;
          LogConcat(log(s.events), log(b.state.events), log(rest.state.events), first, second);
          assert log(o.state.events) == log(s.events) + Range(c + 1, Min(c + k + more, T) + 1);
        }
      } else {
        assert o == b;
      }
    }
  }

  /** The whole epoch loop logs exactly the counter values
      `step + 1 .. min(step + epochs * k, total_iters)`, in order. */
  lemma EpochsCount<W(!new)>(totalIters: int, k: nat, epochBody: (int, State<W>) -> Outcome<W>, log: seq<Event> -> seq<int>, epoch: int, last: int, s: State<W>)
    requires EpochTrains(totalIters, k, epochBody, log)
    ensures var o := Epochs(epochBody, epoch, last, s);
      o.error.None? ==>
        log(o.state.events) == log(s.events)
          + Range(s.step + 1, Min(s.step + EpochsLeft(epoch, last) * k, totalIters) + 1)
  {
    EpochsCountSpan(totalIters, k, epochBody, log, epoch, last, s);
    SpanIsProduct(EpochsLeft(epoch, last), k);
  }

  /** Once the counter has reached `total_iters`, every remaining epoch still
      bumps it exactly once and does nothing else. */
  lemma {:induction false} ExhaustedEpochs<W(!new)>(totalIters: int, epochBody: (int, State<W>) -> Outcome<W>, epoch: int, last: int, s: State<W>)
    requires EpochIdle(totalIters, epochBody) && s.step >= totalIters
    ensures var o := Epochs(epochBody, epoch, last, s);
      o.error.None? && o.state == s.(step := s.step + EpochsLeft(epoch, last))
    decreases last + 1 - epoch
  {
    if epoch <= last {
      assert EpochIdleAt(totalIters, epochBody, epoch, s);
      ExhaustedEpochs(totalIters, epochBody, epoch + 1, last, s.(step := s.step + 1));
    }
  }

  // ----- the whole run -----

  /** The final save changes nothing the history determines. */
  lemma SavedLatestKeeps<W, P>(cfg: Config, env: Env<W, P>, s0: State<W>, e: State<W>)
    requires Coherent(env, e) && Progress(cfg, s0, e)
    ensures var f := e.(events := e.events + [SavedLatest]);
      && Coherent(env, f) && Progress(cfg, s0, f)
      && TrainedSteps(f.events) == TrainedSteps(e.events)
  {
    var f := e.(events := e.events + [SavedLatest]);
    var es := f.events;
    assert es[..|e.events|] == e.events;
    TrainedSnoc(e.events, SavedLatest);
    assert Progress(cfg, e, f);
    ProgressTrans(cfg, s0, e, f);
  }

  /** The epoch loop and the final save keep the state coherent and move it forward. */
  lemma RunFromKeeps<W(!new), P>(cfg: Config, env: Env<W, P>, epochBody: (int, State<W>) -> Outcome<W>, start: State<W>, startEpoch: int, totalEpochs: int)
    requires EpochKeepsCoherent(cfg, env, epochBody) && Coherent(env, start)
    ensures var o := RunFrom(epochBody, cfg.rank, start, startEpoch, totalEpochs);
      Coherent(env, o.state) && Progress(cfg, start, o.state)
  {
    var e := Epochs(epochBody, startEpoch, totalEpochs, start);
    EpochsKeep(cfg, env, epochBody, startEpoch, totalEpochs, start);
    var o := RunFrom(epochBody, cfg.rank, start, startEpoch, totalEpochs);
    if e.error.None? && cfg.rank <= 0 {
      SavedLatestKeeps(cfg, env, start, e.state);
      assert o.state == e.state.(events := e.state.events + [SavedLatest]);
    } else {
      assert o == e;
    }
  }

  /** The epoch loop and the final save train exactly what the epoch loop trains. */
  lemma RunFromTrains<W(!new)>(totalIters: int, k: nat, epochBody: (int, State<W>) -> Outcome<W>, rank: int, start: State<W>, startEpoch: int, totalEpochs: int)
    requires EpochTrains(totalIters, k, epochBody, TrainedSteps)
    ensures var o := RunFrom(epochBody, rank, start, startEpoch, totalEpochs);
      o.error.None? ==>
        TrainedSteps(o.state.events) == TrainedSteps(start.events)
          + Range(start.step + 1, Min(start.step + EpochsLeft(startEpoch, totalEpochs) * k, totalIters) + 1)
  {
    var e := Epochs(epochBody, startEpoch, totalEpochs, start);
    EpochsCount(totalIters, k, epochBody, TrainedSteps, startEpoch, totalEpochs, start);
    var o := RunFrom(epochBody, rank, start, startEpoch, totalEpochs);
    if e.error.None? && rank <= 0 {
      assert o.state.events == e.state.events + [SavedLatest];
      TrainedSnoc(e.state.events, SavedLatest);
    } else {
      assert o == e;
    }
  }

  /** Over a whole run from the initial (or resumed) state, whether it ends
      normally or with an exception:
      - the best record and `avg_psnr` are those the history determines, so the
        best record is the first strict maximum of the validation averages;
      - the live weights are always the snapshot plus the steps trained since the
        last validation, so after any validation they equal the snapshot;
      - until some validation is accepted the snapshot is the starting weights,
        so every rejection before the first accept restores them;
      - every checkpoint follows a most recent validation above 26. */
  lemma RunFacts<W(!new), P>(cfg: Config, env: Env<W, P>, w0: W, startIter: int, startEpoch: int, totalEpochs: int, batches: nat)
    ensures var o := Run(cfg, env, w0, startIter, startEpoch, totalEpochs, batches);
      var s := o.state;
      && s.best == BestOf(s.events)
      && s.avgPsnr == LastAvg(s.events)
      && s.live == Replay(env.train, s.snapshot, Pending(s.events))
      && (NoAcceptFrom(s.events, 0) ==> s.snapshot == w0)
      && SavesJustified(cfg, s.events, 0)
  {
    EpochPassKeepsCoherent(cfg, env, batches);
    RunFromKeeps(cfg, env, EpochPass(cfg, env, batches), Start(w0, startIter), startEpoch, totalEpochs);
  }

  /** A run that ends normally trains for exactly the counter values after the
      start up to `min(start + epochs * batches, total_iters)`, in order. */
  lemma RunTrains<W(!new), P>(cfg: Config, env: Env<W, P>, w0: W, startIter: int, startEpoch: int, totalEpochs: int, batches: nat)
    ensures var o := Run(cfg, env, w0, startIter, startEpoch, totalEpochs, batches);
      o.error.None? ==>
        TrainedSteps(o.state.events) == Range(startIter + 1, Min(startIter + EpochsLeft(startEpoch, totalEpochs) * batches, cfg.totalIters) + 1)
  {
    var trained := Range(startIter + 1, Min(startIter + EpochsLeft(startEpoch, totalEpochs) * batches, cfg.totalIters) + 1);
    EpochPassTrains(cfg, env, batches);
    RunFromTrains(cfg.totalIters, batches, EpochPass(cfg, env, batches), cfg.rank, Start(w0, startIter), startEpoch, totalEpochs);
    assert TrainedSteps(Start(w0, startIter).events) + trained == trained;
    assert Run(cfg, env, w0, startIter, startEpoch, totalEpochs, batches)
      == RunFrom(EpochPass(cfg, env, batches), cfg.rank, Start(w0, startIter), startEpoch, totalEpochs);
  }

  /** A fresh run that is not distributed, sized as the script sizes it
      (epochs `0 .. total_epochs`, and `train_size` batches per epoch, which
      assumes the loader yields as many batches as the script counts), trains
      every step `1 .. total_iters` exactly once, in order, when it ends
      normally: the last epoch never falls short of `total_iters`. */
  lemma PlannedRunTrains<W(!new), P>(cfg: Config, env: Env<W, P>, w0: W, trainLen: nat, batchSize: int)
    requires batchSize > 0 && trainLen > 0
    ensures var plan := Sizing.EpochPlan(trainLen, batchSize, cfg.totalIters, false);
      && plan.Ok?
      && var o := Run(cfg, env, w0, 0, 0, plan.value.totalEpochs, plan.value.trainSize);
         o.error.None? ==> TrainedSteps(o.state.events) == Range(1, cfg.totalIters + 1)
  {
    var plan := Sizing.EpochPlan(trainLen, batchSize, cfg.totalIters, false).value;
    var ts, e, t := plan.trainSize, plan.totalEpochs, cfg.totalIters;
    assert ts > 0 && (e - 1) * ts < t <= e * ts;
    RunTrains(cfg, env, w0, 0, 0, e, ts);
    var covered := EpochsLeft(0, e) * ts;
    if e < 0 {
      assert t < 0 by { assert (e - 1) * ts < 0; }
      assert covered == 0;
    } else {
      assert covered == e * ts + ts;
    }
    assert Min(0 + covered, t) == t;
  }
}
