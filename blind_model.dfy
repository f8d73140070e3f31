/** The bookkeeping of the blind super-resolution model wrapper: the dispatch
    on configuration strings, the split of the network's parameters into two
    optimizer groups, the input fields that `feed_data` fills, the two-entry
    loss log of a training step, the train/eval mode around inference and the
    geometric self-ensemble. The network, the losses and the optimizer's
    arithmetic are opaque functions supplied from outside. */
module BlindModel {
  import opened Common
  import opened Augment

  // ---------------------------------------------------------------- losses

  /** The pixel criteria `__init__` knows. */
  datatype Criterion = L1Loss | MSELoss | CharbonnierLoss

  /** The configuration string naming each criterion. */
  function CriterionName(c: Criterion): string
  {
    match c
    case L1Loss => "l1"
    case MSELoss => "l2"
    case CharbonnierLoss => "cb"
  }

  /** `pixel_criterion` "l1", "l2" or "cb"; anything else is rejected. */
  function PixelCriterion(lossType: string): (r: Result<Criterion>)
    ensures r.Ok? <==> lossType == "l1" || lossType == "l2" || lossType == "cb"
    ensures r.Raise? ==> r.error == NotImplementedError("Loss type [" + lossType + "] is not recognized.")
  {
    if lossType == "l1" then Ok(L1Loss)
    else if lossType == "l2" then Ok(MSELoss)
    else if lossType == "cb" then Ok(CharbonnierLoss)
    else Raise(NotImplementedError("Loss type [" + lossType + "] is not recognized."))
  }

  /** Every criterion is selected by its own name... */
  lemma CriterionRoundTrip(c: Criterion)
    ensures PixelCriterion(CriterionName(c)) == Ok(c)
  {
  }

  /** ...and a string that selects a criterion is that criterion's name. */
  lemma CriterionNamed(lossType: string)
    requires PixelCriterion(lossType).Ok?
    ensures CriterionName(PixelCriterion(lossType).value) == lossType
  {
  }

  // ------------------------------------------------------- parameter groups

  /** A named parameter of the network, as `named_parameters()` yields it. */
  datatype Param<V> = Param(name: string, requiresGrad: bool, value: V)

  /** Where the partition puts a parameter: into one of the two optimizer
      groups, nowhere with a warning (frozen), or silently nowhere. */
  datatype Group = RestorerGroup | EstimatorGroup | Frozen | Untagged

  /** A trainable parameter goes to the restorer when its name contains
      "Restorer", else to the estimator when it contains "Estimator". */
  function GroupOf<V>(p: Param<V>): Group
  {
    if !p.requiresGrad then Frozen
    else if Contains(p.name, "Restorer") then RestorerGroup
    else if Contains(p.name, "Estimator") then EstimatorGroup
    else Untagged
  }

  /** The parameters of group `g`, in their original order. */
  function Select<V>(ps: seq<Param<V>>, g: Group): (r: seq<Param<V>>)
    ensures |r| <= |ps|
    ensures forall k :: 0 <= k < |r| ==> GroupOf(r[k]) == g
  {
    if ps == [] then []
    else Select(ps[..|ps| - 1], g) + (if GroupOf(ps[|ps| - 1]) == g then [ps[|ps| - 1]] else [])
  }

  function Values<V>(ps: seq<Param<V>>): (r: seq<V>)
    ensures |r| == |ps|
    ensures forall k :: 0 <= k < |ps| ==> r[k] == ps[k].value
  {
    seq(|ps|, k requires 0 <= k < |ps| => ps[k].value)
  }

  /** The message logged for a frozen parameter. */
  function Warning(name: string): string
  {
    "Params [" + name + "] will not optimize."
  }

  /** One warning per frozen parameter, in order, only on rank -1 or 0. */
  function Warnings<V>(ps: seq<Param<V>>, rank: int): (r: seq<string>)
    ensures rank > 0 ==> r == []
    ensures rank <= 0 ==> |r| == |Select(ps, Frozen)|
    ensures rank <= 0 ==> forall k :: 0 <= k < |r| ==> r[k] == Warning(Select(ps, Frozen)[k].name)
  {
    if rank > 0 then []
    else
      var frozen := Select(ps, Frozen);
      seq(|frozen|, k requires 0 <= k < |frozen| => Warning(frozen[k].name))
  }

  /** Selecting from a concatenation selects from each part, keeping order. */
  lemma {:induction false} SelectAppend<V>(a: seq<Param<V>>, b: seq<Param<V>>, g: Group)
    ensures Select(a + b, g) == Select(a, g) + Select(b, g)
    decreases |b|
  {
    if b == [] {
      assert a + b == a;
    } else {
      var b' := b[..|b| - 1];
      assert (a + b)[..|a + b| - 1] == a + b';
      SelectAppend(a, b', g);
    }
  }

  /** One more parameter extends its own group's selection by itself and
      leaves the other groups' selections as they were. */
  lemma SelectSnoc<V>(ps: seq<Param<V>>, i: nat, h: Group)
    requires i < |ps|
    ensures Select(ps[..i + 1], h) == Select(ps[..i], h) + if GroupOf(ps[i]) == h then [ps[i]] else []
  {
    assert ps[..i + 1][..i] == ps[..i];
  }

  /** The four groups partition the parameters: every parameter lands in
      exactly one of them, so the two optimizer groups are disjoint. */
  lemma {:induction false} SelectPartition<V>(ps: seq<Param<V>>)
    ensures multiset(Select(ps, RestorerGroup)) + multiset(Select(ps, EstimatorGroup))
          + multiset(Select(ps, Frozen)) + multiset(Select(ps, Untagged)) == multiset(ps)
  {
    if ps != [] {
      var n := |ps| - 1;
      var init, last := ps[..n], ps[n];
      SelectPartition(init);
      assert ps[..n + 1] == ps;
      assert ps == init + [last];
      SelectShare(ps, n, RestorerGroup);
      SelectShare(ps, n, EstimatorGroup);
      SelectShare(ps, n, Frozen);
      SelectShare(ps, n, Untagged);
      ShareSum(last);
      Regroup(multiset(Select(init, RestorerGroup)), multiset(Select(init, EstimatorGroup)),
              multiset(Select(init, Frozen)), multiset(Select(init, Untagged)),
              Share(last, RestorerGroup), Share(last, EstimatorGroup), Share(last, Frozen), Share(last, Untagged));
    }
  }

  lemma Regroup<T>(r: multiset<T>, e: multiset<T>, f: multiset<T>, u: multiset<T>,
                   r': multiset<T>, e': multiset<T>, f': multiset<T>, u': multiset<T>)
    ensures (r + r') + (e + e') + (f + f') + (u + u') == (r + e + f + u) + (r' + e' + f' + u')
  {
  }

  /** A parameter is in exactly one group. */
  lemma ShareSum<V>(p: Param<V>)
    ensures Share(p, RestorerGroup) + Share(p, EstimatorGroup) + Share(p, Frozen) + Share(p, Untagged) == multiset{p}
  {
  }

  /** What a parameter adds to the multiset of group `h`. */
  ghost function Share<V>(p: Param<V>, h: Group): multiset<Param<V>>
  {
    if GroupOf(p) == h then multiset{p} else multiset{}
  }

  lemma SelectShare<V>(ps: seq<Param<V>>, i: nat, h: Group)
    requires i < |ps|
    ensures multiset(Select(ps[..i + 1], h)) == multiset(Select(ps[..i], h)) + Share(ps[i], h)
  {
    SelectSnoc(ps, i, h);
  }

  /** The number of trainable parameters that the optimizer receives plus
      those matching neither tag plus the frozen ones is the total. */
  lemma {:induction false} SelectCount<V>(ps: seq<Param<V>>)
    ensures |Select(ps, RestorerGroup)| + |Select(ps, EstimatorGroup)|
          + |Select(ps, Frozen)| + |Select(ps, Untagged)| == |ps|
  {
    SelectPartition(ps);
    assert |multiset(ps)| == |ps|;
  }

  /** A trainable parameter whose name contains both tags is a restorer
      parameter, and it is not in the estimator group. */
  lemma {:induction false} BothTagsGoToRestorer<V>(ps: seq<Param<V>>, i: nat)
    requires i < |ps| && ps[i].requiresGrad
    requires Contains(ps[i].name, "Restorer") && Contains(ps[i].name, "Estimator")
    ensures ps[i] in Select(ps, RestorerGroup)
    ensures forall k :: 0 <= k < |Select(ps, EstimatorGroup)| ==> Select(ps, EstimatorGroup)[k].name != ps[i].name
  {
    assert ps == ps[..i] + [ps[i]] + ps[i + 1..];
    SelectAppend(ps[..i] + [ps[i]], ps[i + 1..], RestorerGroup);
    SelectAppend(ps[..i], [ps[i]], RestorerGroup);
    assert Select([ps[i]], RestorerGroup) == Select([], RestorerGroup) + [ps[i]];
    forall k | 0 <= k < |Select(ps, EstimatorGroup)|
      ensures Select(ps, EstimatorGroup)[k].name != ps[i].name
    {
      var q := Select(ps, EstimatorGroup)[k];
      assert GroupOf(q) == EstimatorGroup;
    }
  }

  /** The loop of lines 74-85: walk the named parameters, appending the
      trainable ones to the restorer or estimator list and warning about the
      frozen ones when `rank <= 0`. */
  method SplitParameters<V>(params: seq<Param<V>>, rank: int)
    returns (restorer: seq<V>, estimator: seq<V>, warnings: seq<string>)
    ensures restorer == Values(Select(params, RestorerGroup))
    ensures estimator == Values(Select(params, EstimatorGroup))
    ensures warnings == Warnings(params, rank)
  {
    restorer, estimator, warnings := [], [], [];
    var i := 0;
    while i < |params|
      invariant i <= |params|
      invariant restorer == Values(Select(params[..i], RestorerGroup))
      invariant estimator == Values(Select(params[..i], EstimatorGroup))
      invariant warnings == Warnings(params[..i], rank)
    {
      var p := params[i];
      SplitStep(params, i, rank);
      if p.requiresGrad {
        if Contains(p.name, "Restorer") {
          restorer := restorer + [p.value];
        } else if Contains(p.name, "Estimator") {
          estimator := estimator + [p.value];
        }
      } else {
        if rank <= 0 {
          warnings := warnings + [Warning(p.name)];
        }
      }
      i := i + 1;
    }
    assert params[..i] == params;
  }

  /** How one iteration of the partition loop extends its three outputs. */
  lemma SplitStep<V>(params: seq<Param<V>>, i: nat, rank: int)
    requires i < |params|
    ensures var p, g := params[i], GroupOf(params[i]);
      && Values(Select(params[..i + 1], RestorerGroup))
         == Values(Select(params[..i], RestorerGroup)) + (if g == RestorerGroup then [p.value] else [])
      && Values(Select(params[..i + 1], EstimatorGroup))
         == Values(Select(params[..i], EstimatorGroup)) + (if g == EstimatorGroup then [p.value] else [])
      && Warnings(params[..i + 1], rank)
         == Warnings(params[..i], rank) + (if rank <= 0 && g == Frozen then [Warning(p.name)] else [])
  {
    SelectSnoc(params, i, RestorerGroup);
    SelectSnoc(params, i, EstimatorGroup);
    SelectSnoc(params, i, Frozen);
  }

  // ------------------------------------------------ optimizer and schedulers

  /** `weight_decay_G if weight_decay_G else 0`: a missing (None) value gives
      0, and so does a zero, so the truthiness test changes nothing else. */
  function WeightDecay(configured: Option<real>): (r: real)
    ensures configured.Some? ==> r == configured.value
    ensures configured.None? ==> r == 0.0
  {
    match configured
    case None => 0.0
    case Some(x) => if x != 0.0 then x else 0.0
  }

  datatype ParamGroup<V> = ParamGroup(params: seq<V>, lr: real)

  datatype Optimizer<V> = Adam(groups: seq<ParamGroup<V>>, weightDecay: real, beta1: real, beta2: real)

  datatype SchedulerKind = MultiStepLRRestart | CosineAnnealingLRRestart

  /** A scheduler attached to one optimizer; its numeric options are passed
      through unchanged and are not represented. */
  datatype Scheduler<V> = Scheduler(kind: SchedulerKind, optimizer: Optimizer<V>)

  /** `lr_scheme` "MultiStepLR" or "CosineAnnealingLR_Restart"; any other
      value selects no scheduler and raises nothing. */
  function SchedulerFor(scheme: string): (r: Option<SchedulerKind>)
    ensures r.Some? <==> scheme == "MultiStepLR" || scheme == "CosineAnnealingLR_Restart"
    ensures r == Some(MultiStepLRRestart) <==> scheme == "MultiStepLR"
  {
    if scheme == "MultiStepLR" then Some(MultiStepLRRestart)
    else if scheme == "CosineAnnealingLR_Restart" then Some(CosineAnnealingLRRestart)
    else None
  }

  /** Lines 98-122: one scheduler of the chosen kind per optimizer, appended
      in optimizer order; none for an unknown scheme. */
  method AttachSchedulers<V>(scheme: string, optimizers: seq<Optimizer<V>>, schedulers: seq<Scheduler<V>>)
    returns (r: seq<Scheduler<V>>)
    ensures SchedulerFor(scheme).None? ==> r == schedulers
    ensures SchedulerFor(scheme).Some? ==>
      && |r| == |schedulers| + |optimizers|
      && r[..|schedulers|] == schedulers
      && forall k :: 0 <= k < |optimizers| ==> r[|schedulers| + k] == Scheduler(SchedulerFor(scheme).value, optimizers[k])
  {
    r := schedulers;
    var kind := SchedulerFor(scheme);
    if kind.Some? {
      var i := 0;
      while i < |optimizers|
        invariant i <= |optimizers|
        invariant |r| == |schedulers| + i
        invariant r[..|schedulers|] == schedulers
        invariant forall k :: 0 <= k < i ==> r[|schedulers| + k] == Scheduler(kind.value, optimizers[k])
      {
        r := r + [Scheduler(kind.value, optimizers[i])];
        i := i + 1;
      }
    }
  }

  /** The `train` options `__init__` reads. */
  datatype TrainOptions = TrainOptions(
    pixelCriterion: string,
    pixelWeight: real,
    weightDecayG: Option<real>,
    lrG: real,
    lrE: real,
    beta1: real,
    beta2: real,
    lrScheme: string)

  /** What the training branch of `__init__` sets up. */
  datatype Setup<V> = Setup(
    criterion: Criterion,
    pixelWeight: real,
    optimizer: Optimizer<V>,
    optimizers: seq<Optimizer<V>>,
    schedulers: seq<Scheduler<V>>,
    warnings: seq<string>)

  /** The training branch of `__init__` (lines 49-124), starting from the
      empty optimizer and scheduler lists: the loss is chosen first, so an
      unknown criterion raises before anything else is set up. */
  method Configure<V>(opt: TrainOptions, params: seq<Param<V>>, rank: int) returns (r: Result<Setup<V>>)
    ensures r.Raise? <==> PixelCriterion(opt.pixelCriterion).Raise?
    ensures r.Raise? ==> r.error == PixelCriterion(opt.pixelCriterion).error
    ensures r.Ok? ==>
      var s := r.value;
      && s.criterion == PixelCriterion(opt.pixelCriterion).value
      && s.pixelWeight == opt.pixelWeight
      && s.optimizer.groups == [ParamGroup(Values(Select(params, RestorerGroup)), opt.lrG),
                                ParamGroup(Values(Select(params, EstimatorGroup)), opt.lrE)]
      && s.optimizer.weightDecay == WeightDecay(opt.weightDecayG)
      && (s.optimizer.beta1, s.optimizer.beta2) == (opt.beta1, opt.beta2)
      && s.optimizers == [s.optimizer]
      && s.schedulers == (match SchedulerFor(opt.lrScheme)
                          case None => []
                          case Some(kind) => [Scheduler(kind, s.optimizer)])
      && s.warnings == Warnings(params, rank)
  {
    var criterion := PixelCriterion(opt.pixelCriterion);
    if criterion.Raise? {
      return Raise(criterion.error);
    }
    var wd := WeightDecay(opt.weightDecayG);
    var restorer, estimator, warnings := SplitParameters(params, rank);
    var optimizer := Adam([ParamGroup(restorer, opt.lrG), ParamGroup(estimator, opt.lrE)], wd, opt.beta1, opt.beta2);
    var optimizers := [optimizer];
    var schedulers := AttachSchedulers(opt.lrScheme, optimizers, []);
    if SchedulerFor(opt.lrScheme).Some? {
      var kind := SchedulerFor(opt.lrScheme).value;
      assert |schedulers| == 1 && schedulers[0 + 0] == Scheduler(kind, optimizers[0]);
      assert schedulers == [Scheduler(kind, optimizer)];
    }
    r := Ok(Setup(criterion.value, opt.pixelWeight, optimizer, optimizers, schedulers, warnings));
  }

  // ------------------------------------------------------------ the loss log

  /** `log_dict`, an ordered dictionary from loss names to values. */
  type Log = seq<(string, real)>

  function Keys(d: Log): (r: seq<string>)
    ensures |r| == |d|
    ensures forall k :: 0 <= k < |d| ==> r[k] == d[k].0
  {
    seq(|d|, k requires 0 <= k < |d| => d[k].0)
  }

  function Get(d: Log, key: string): Option<real>
  {
    if d == [] then None
    else if d[0].0 == key then Some(d[0].1)
    else Get(d[1..], key)
  }

  /** `d[key] = v`: an existing key keeps its position, a new one goes last. */
  function Put(d: Log, key: string, v: real): Log
  {
    if d == [] then [(key, v)]
    else if d[0].0 == key then [(key, v)] + d[1..]
    else [d[0]] + Put(d[1..], key, v)
  }

  /** Reading back a key just written gives the value written. */
  lemma {:induction false} PutGet(d: Log, key: string, v: real)
    ensures Get(Put(d, key, v), key) == Some(v)
  {
    if d != [] && d[0].0 != key {
      PutGet(d[1..], key, v);
      assert Put(d, key, v)[1..] == Put(d[1..], key, v);
    }
  }

  /** Writing one key leaves every other key's value as it was. */
  lemma {:induction false} PutOther(d: Log, key: string, v: real, other: string)
    requires other != key
    ensures Get(Put(d, key, v), other) == Get(d, other)
  {
    if d != [] {
      if d[0].0 == key {
        assert Put(d, key, v)[1..] == d[1..];
      } else if d[0].0 != other {
        PutOther(d[1..], key, v, other);
        assert Put(d, key, v)[1..] == Put(d[1..], key, v);
      }
    }
  }

  /** The keys keep their order; a key not yet present is appended. */
  lemma {:induction false} PutKeys(d: Log, key: string, v: real)
    ensures Keys(Put(d, key, v)) == if key in Keys(d) then Keys(d) else Keys(d) + [key]
  {
    if d != [] {
      if d[0].0 == key {
        assert Keys(Put(d, key, v)) == Keys(d);
      } else {
        PutKeys(d[1..], key, v);
        assert Keys(d) == [d[0].0] + Keys(d[1..]);
        assert Keys(Put(d, key, v)) == [d[0].0] + Keys(Put(d[1..], key, v));
        assert key in Keys(d) <==> key in Keys(d[1..]);
      }
    }
  }

  /** The two writes of a training step: afterwards the log reads back both
      losses, and a log that was empty or held exactly these two keys holds
      exactly ["l_pix", "l_ker"] in that order. */
  lemma {:induction false} StepLog(d: Log, pix: real, ker: real)
    requires Keys(d) == [] || Keys(d) == ["l_pix", "l_ker"]
    ensures var e := Put(Put(d, "l_pix", pix), "l_ker", ker);
      && Get(e, "l_pix") == Some(pix)
      && Get(e, "l_ker") == Some(ker)
      && Keys(e) == ["l_pix", "l_ker"]
  {
    var e1 := Put(d, "l_pix", pix);
    var e := Put(e1, "l_ker", ker);
    PutGet(d, "l_pix", pix);
    PutOther(e1, "l_ker", ker, "l_pix");
    PutGet(e1, "l_ker", ker);
    PutKeys(d, "l_pix", pix);
    PutKeys(e1, "l_ker", ker);
    if Keys(d) == [] {
      assert Keys(e1) == ["l_pix"];
    } else {
      assert "l_pix" in Keys(d);
      assert Keys(e1) == ["l_pix", "l_ker"];
    }
  }

  // ----------------------------------------------------------------- inputs

  /** `feed_data`'s rule for an optional argument: present overwrites,
      absent keeps. */
  function Overwrite<T>(current: Option<T>, arg: Option<T>): (r: Option<T>)
    ensures arg.Some? ==> r == arg
    ensures arg.None? ==> r == current
  {
    if arg.Some? then arg else current
  }

  /** Feeding the same arguments twice is the same as feeding them once. */
  lemma {:induction false} OverwriteIdempotent<T>(current: Option<T>, arg: Option<T>)
    ensures Overwrite(Overwrite(current, arg), arg) == Overwrite(current, arg)
  {
    if arg.None? {
      assert Overwrite(current, arg) == current;
    }
  }

  /** One step of the optimizer as the network sees it. */
  datatype Update = ZeroGrad | Backward(total: real) | StepOptimizer

  /** What `get_current_visuals` returns. */
  datatype Visuals<P, K> = Visuals(lq: Plane<P>, sr: Plane<P>, gt: Plane<P>, ker: K)

  /** The model after a successful `__init__` in training mode. Attributes
      `feed_data` and the inference methods create on first use are `None`
      until then, so reading one early raises AttributeError. */
  class Model<P, K> {
    /** `netG` forward: the restored image and the estimated kernel. */
    const net: Plane<P> -> (Plane<P>, K)
    /** The kernel loss `d_kr` of `cri_kernel(kernel, lr_blured, lr)`. */
    const kernelLoss: (K, Plane<P>, Plane<P>) -> real
    /** The pixel loss `cri_pix(sr, real_H)`. */
    const pixelLoss: (Plane<P>, Plane<P>) -> real
    /** The average of the ensemble outputs. */
    const mean: seq<Plane<P>> -> Plane<P>

    var training: bool
    var varL: Option<Plane<P>>
    var realH: Option<Plane<P>>
    var realKerMap: Option<K>
    var realKernel: Option<K>
    var lrBlured: Option<Plane<P>>
    var lr: Option<Plane<P>>
    var fakeSR: Option<Plane<P>>
    var fakeKer: Option<K>
    var fakeH: Option<Plane<P>>
    var log: Log
    ghost var updates: seq<Update>

    /** The log only ever holds nothing or the two losses, in order. */
    ghost predicate Valid()
      reads this
    {
      Keys(log) == [] || Keys(log) == ["l_pix", "l_ker"]
    }

    constructor(net: Plane<P> -> (Plane<P>, K), kernelLoss: (K, Plane<P>, Plane<P>) -> real,
                pixelLoss: (Plane<P>, Plane<P>) -> real, mean: seq<Plane<P>> -> Plane<P>)
      ensures Valid() && training && log == [] && updates == []
      ensures varL.None? && realH.None? && realKerMap.None? && realKernel.None? && lrBlured.None? && lr.None?
      ensures fakeSR.None? && fakeKer.None? && fakeH.None?
      ensures this.net == net && this.kernelLoss == kernelLoss && this.pixelLoss == pixelLoss && this.mean == mean
    {
      this.net := net;
      this.kernelLoss := kernelLoss;
      this.pixelLoss := pixelLoss;
      this.mean := mean;
      training := true;
      varL, realH, realKerMap, realKernel, lrBlured, lr := None, None, None, None, None, None;
      fakeSR, fakeKer, fakeH := None, None, None;
      log := [];
      updates := [];
    }

    /** Lines 143-154: the input is always replaced, each optional field only
        when its argument is given; nothing else changes. */
    method FeedData(lqImg: Plane<P>, gtImg: Option<Plane<P>>, kernel: Option<K>, kerMap: Option<K>,
                    blured: Option<Plane<P>>, lrImg: Option<Plane<P>>)
      modifies this
      ensures varL == Some(lqImg)
      ensures realH == Overwrite(old(realH), gtImg)
      ensures realKerMap == Overwrite(old(realKerMap), kerMap)
      ensures realKernel == Overwrite(old(realKernel), kernel)
      ensures lrBlured == Overwrite(old(lrBlured), blured)
      ensures lr == Overwrite(old(lr), lrImg)
      ensures training == old(training) && log == old(log) && updates == old(updates)
      ensures fakeSR == old(fakeSR) && fakeKer == old(fakeKer) && fakeH == old(fakeH)
    {
      varL := Some(lqImg);
      if gtImg.Some? {
        realH := gtImg;
      }
      if kerMap.Some? {
        realKerMap := kerMap;
      }
      if kernel.Some? {
        realKernel := kernel;
      }
      if blured.Some? {
        lrBlured := blured;
      }
      if lrImg.Some? {
        lr := lrImg;
      }
    }

    /** Lines 157-175: forward pass, kernel loss and pixel loss, the two
        losses logged, then zero_grad, backward on their plain sum and step.
        A missing input raises at the first attribute read, after the
        outputs of the forward pass were stored. */
    method OptimizeParameters(step: int) returns (err: Option<PyError>)
      requires Valid()
      modifies this
      ensures Valid()
      ensures old(varL).None? ==> err == Some(AttributeError("var_L")) && unchanged(this)
      ensures old(varL).Some? ==>
        var (sr, kernel) := net(old(varL).value);
        && fakeSR == Some(sr) && fakeKer == Some(kernel)
        && (err.None? <==> old(lrBlured).Some? && old(lr).Some? && old(realH).Some?)
        && (old(lrBlured).None? ==> err == Some(AttributeError("lr_blured")))
        && (old(lrBlured).Some? && old(lr).None? ==> err == Some(AttributeError("lr")))
        && (old(lrBlured).Some? && old(lr).Some? && old(realH).None? ==> err == Some(AttributeError("real_H")))
        && (err.Some? ==> log == old(log) && updates == old(updates))
        && (err.None? ==>
              var dKr := kernelLoss(kernel, old(lrBlured).value, old(lr).value);
              var dSr := pixelLoss(sr, old(realH).value);
              && Get(log, "l_pix") == Some(dSr)
              && Get(log, "l_ker") == Some(dKr)
              && Keys(log) == ["l_pix", "l_ker"]
              && updates == old(updates) + [ZeroGrad, Backward(dKr + dSr), StepOptimizer])
      ensures training == old(training) && fakeH == old(fakeH)
      ensures varL == old(varL) && realH == old(realH) && realKerMap == old(realKerMap)
      ensures realKernel == old(realKernel) && lrBlured == old(lrBlured) && lr == old(lr)
    {
      if varL.None? {
        return Some(AttributeError("var_L"));
      }
      var (sr, kernel) := net(varL.value);
      fakeSR := Some(sr);
      fakeKer := Some(kernel);
      if lrBlured.None? {
        return Some(AttributeError("lr_blured"));
      }
      if lr.None? {
        return Some(AttributeError("lr"));
      }
      var dKr := kernelLoss(kernel, lrBlured.value, lr.value);
      if realH.None? {
        return Some(AttributeError("real_H"));
      }
      var dSr := pixelLoss(sr, realH.value);
      StepLog(log, dSr, dKr);
      log := Put(Put(log, "l_pix", dSr), "l_ker", dKr);
      updates := updates + [ZeroGrad, Backward(dKr + dSr), StepOptimizer];
      err := None;
    }

    /** Lines 178-185: inference in eval mode, back to train mode after.
        Without an input the read of `var_L` raises and the network stays in
        eval mode. */
    method Test() returns (err: Option<PyError>)
      modifies this
      ensures err.Some? <==> old(varL).None?
      ensures err.Some? ==> err == Some(AttributeError("var_L")) && !training
      ensures err.Some? ==> fakeSR == old(fakeSR) && fakeKer == old(fakeKer)
      ensures err.None? ==> training && (fakeSR, fakeKer) == (Some(net(old(varL).value).0), Some(net(old(varL).value).1))
      ensures varL == old(varL) && realH == old(realH) && realKerMap == old(realKerMap)
      ensures realKernel == old(realKernel) && lrBlured == old(lrBlured) && lr == old(lr)
      ensures fakeH == old(fakeH) && log == old(log) && updates == old(updates)
    {
      training := false;
      if varL.None? {
        return Some(AttributeError("var_L"));
      }
      var (sr, kernel) := net(varL.value);
      fakeSR := Some(sr);
      fakeKer := Some(kernel);
      training := true;
      err := None;
    }

    /** Lines 187-221: the eight-way self-ensemble in eval mode. The result
        goes to `fake_H`; `fake_SR` is left as it was. */
    method TestX8() returns (err: Option<PyError>)
      modifies this
      ensures err.Some? <==> old(varL).None?
      ensures err.Some? ==> err == Some(AttributeError("var_L")) && !training && fakeH == old(fakeH)
      ensures err.None? ==> training && fakeH == Some(mean(Ensemble(x => net(x).0, old(varL).value)))
      ensures fakeSR == old(fakeSR) && fakeKer == old(fakeKer)
      ensures varL == old(varL) && realH == old(realH) && realKerMap == old(realKerMap)
      ensures realKernel == old(realKernel) && lrBlured == old(lrBlured) && lr == old(lr)
      ensures log == old(log) && updates == old(updates)
    {
      training := false;
      if varL.None? {
        return Some(AttributeError("var_L"));
      }
      var inputs := Augmentations(varL.value);
      var forward := net;
      var outputs := new Plane<P>[8](i requires 0 <= i < 8 => forward(inputs[i]).0);
      ghost var raw := outputs[..];
      Restore(outputs);
      assert outputs[..] == Ensemble(x => net(x).0, varL.value);
      fakeH := Some(mean(outputs[..]));
      training := true;
      err := None;
    }

    /** Lines 223-224. */
    function CurrentLog(): (r: Log)
      reads this
      requires Valid()
      ensures Keys(r) == [] || Keys(r) == ["l_pix", "l_ker"]
    {
      log
    }

    /** Lines 226-235: the attributes are read in the order input, output,
        target, kernel; the first one missing raises. */
    function CurrentVisuals(): (r: Result<Visuals<P, K>>)
      reads this
      ensures r.Ok? <==> varL.Some? && fakeSR.Some? && realH.Some? && fakeKer.Some?
      ensures r.Ok? ==> r.value == Visuals(varL.value, fakeSR.value, realH.value, fakeKer.value)
      ensures varL.None? ==> r == Raise(AttributeError("var_L"))
      ensures varL.Some? && fakeSR.None? ==> r == Raise(AttributeError("fake_SR"))
      ensures varL.Some? && fakeSR.Some? && realH.None? ==> r == Raise(AttributeError("real_H"))
      ensures varL.Some? && fakeSR.Some? && realH.Some? && fakeKer.None? ==> r == Raise(AttributeError("fake_ker"))
    {
      if varL.None? then Raise(AttributeError("var_L"))
      else if fakeSR.None? then Raise(AttributeError("fake_SR"))
      else if realH.None? then Raise(AttributeError("real_H"))
      else if fakeKer.None? then Raise(AttributeError("fake_ker"))
      else Ok(Visuals(varL.value, fakeSR.value, realH.value, fakeKer.value))
    }
  }
}
