/** Loss composition: the closed dispatch from configuration strings to estimator
    strategies and transforms, the construction of the proposed loss, the summation
    of its terms, the optional loss-time crop and the SURE margin derivation of `get_loss`.
    The deepinv loss mathematics are foreign: a loss term is evaluated by `eval`. */
module Losses {
  import opened Base
  import opened Signals

  // ---------------------------------------------------------------------------
  // Transforms and loss terms
  // ---------------------------------------------------------------------------

  /** The equivariance transforms; `Combined` is `CombinedTransform([...])`. */
  datatype Transform =
    | Scaling(kind: string, antialias: bool)
    | Combined(parts: seq<Transform>)
    | Rotate
    | Shift

  /** The `ScalingTransform` entry of the blueprint. */
  datatype ScalingBlueprint = ScalingBlueprint(kind: string, antialias: bool)

  /** The `transforms` dispatch of `ProposedLoss.__init__`. */
  function SelectTransform(transforms: string, scaling: ScalingBlueprint): (r: Result<Transform>)
    ensures transforms == "Scaling_Transforms" <==> r == Ok(Scaling(scaling.kind, scaling.antialias))
    ensures transforms == "Rotations+Shifts" <==> r == Ok(Combined([Rotate, Shift]))
    ensures transforms == "Rotations" <==> r == Ok(Rotate)
    ensures transforms == "Shifts" <==> r == Ok(Shift)
    ensures r.Err? <==> transforms !in {"Scaling_Transforms", "Rotations+Shifts", "Rotations", "Shifts"}
    ensures r.Err? ==> r.error == UnknownTransforms(transforms)
  {
    if transforms == "Scaling_Transforms" then Ok(Scaling(scaling.kind, scaling.antialias))
    else if transforms == "Rotations+Shifts" then Ok(Combined([Rotate, Shift]))
    else if transforms == "Rotations" then Ok(Rotate)
    else if transforms == "Shifts" then Ok(Shift)
    else Err(UnknownTransforms(transforms))
  }

  /** The deepinv losses the strategies are built from, with their constructor arguments
      (the metric is always mean squared error). */
  datatype LossTerm =
    | SupLoss
    | SureGaussianLoss(sigma: real, croppedDiv: bool, averagedCst: bool, margin: int)
    | EILoss(transform: Transform, noGrad: bool, weight: real)
    | R2REILoss(transform: Transform, sigma: real, noGrad: bool)

  /** `noise_level / 255`: the noise level on the 8-bit scale, brought to unit scale. */
  function Sigma(noiseLevel: real): real
  {
    noiseLevel / 255.0
  }

  /** The strategy classes. The four wrappers hold one deepinv loss; `ProposedLoss`
      holds its list `loss_fns` and its flag `compute_x_net`. */
  datatype Strategy =
    | SupervisedLoss(loss: LossTerm)
    | CSSLoss(loss: LossTerm)
    | Noise2InverseLoss(loss: LossTerm)
    | SURELoss(loss: LossTerm)
    | ProposedLoss(lossFns: seq<LossTerm>, computeXNet: bool)

  // ---------------------------------------------------------------------------
  // ProposedLoss.__init__
  // ---------------------------------------------------------------------------

  /** The configuration entry `ProposedLoss` of the blueprint. */
  datatype ProposedArgs = ProposedArgs(
    stopGradient: bool,
    sureAlternative: Option<string>,
    alphaTradeoff: real,
    transforms: string)

  /** What an accepted `ProposedLoss.__init__` stores: with `r2r` one random-to-random
      term and no up-front model call; otherwise SURE then EI, and one up-front call. */
  predicate BuiltProposed(s: Strategy, transform: Transform, args: ProposedArgs, sigma: real,
                          croppedDiv: bool, averagedCst: bool, margin: int)
  {
    && s.ProposedLoss?
    && if args.sureAlternative == Some("r2r") then
         s.lossFns == [R2REILoss(transform, sigma, args.stopGradient)] && !s.computeXNet
       else
         && s.lossFns == [SureGaussianLoss(sigma, croppedDiv, averagedCst, margin),
                          EILoss(transform, args.stopGradient, args.alphaTradeoff)]
         && s.computeXNet
  }

  method BuildProposed(args: ProposedArgs, scaling: ScalingBlueprint, noiseLevel: real,
                       sureCroppedDiv: bool, sureAveragedCst: bool, sureMargin: int)
    returns (r: Result<Strategy>)
    ensures SelectTransform(args.transforms, scaling).Err? ==> r == Err(UnknownTransforms(args.transforms))
    ensures SelectTransform(args.transforms, scaling).Ok? && args.sureAlternative !in {None, Some("r2r")} ==>
              r == Err(SureAlternativeRejected(args.sureAlternative))
    ensures r.Ok? <==> SelectTransform(args.transforms, scaling).Ok? && args.sureAlternative in {None, Some("r2r")}
    ensures r.Ok? ==> BuiltProposed(r.value, SelectTransform(args.transforms, scaling).value, args,
                                    Sigma(noiseLevel), sureCroppedDiv, sureAveragedCst, sureMargin)
    ensures r.Ok? ==> (|r.value.lossFns| == 1 <==> !r.value.computeXNet)
  {
    var transform := SelectTransform(args.transforms, scaling);
    if transform.Err? {
      return Err(transform.error);
    }
    var eiTransform := transform.value;

    if !(args.sureAlternative == None || args.sureAlternative == Some("r2r")) {
      return Err(SureAlternativeRejected(args.sureAlternative));
    }

    var lossFns: seq<LossTerm>;
    if args.sureAlternative == Some("r2r") {
      lossFns := [R2REILoss(eiTransform, Sigma(noiseLevel), args.stopGradient)];
    } else {
      var sureLoss := SureGaussianLoss(Sigma(noiseLevel), sureCroppedDiv, sureAveragedCst, sureMargin);
      lossFns := [sureLoss];
      var equivariantLoss := EILoss(eiTransform, args.stopGradient, args.alphaTradeoff);
      lossFns := lossFns + [equivariantLoss];
    }

    var computeXNet: bool;
    if args.sureAlternative == Some("r2r") {
      computeXNet := false;
    } else {
      computeXNet := true;
    }
    r := Ok(ProposedLoss(lossFns, computeXNet));
  }

  // ---------------------------------------------------------------------------
  // Evaluation
  // ---------------------------------------------------------------------------

  /** The keyword arguments every deepinv loss is called with. */
  datatype LossCall = LossCall(x: Signal, xNet: Option<Signal>, y: Signal, physics: Physics, model: Signal -> Signal)

  /** The `loss += ...` accumulation, from 0 and left to right. */
  function Total(lossFns: seq<LossTerm>, call: LossCall, eval: (LossTerm, LossCall) -> real): (r: real)
    ensures lossFns == [] ==> r == 0.0
    decreases |lossFns|
  {
    if lossFns == [] then 0.0
    else Total(lossFns[..|lossFns| - 1], call, eval) + eval(lossFns[|lossFns| - 1], call)
  }

  /** The default proposed loss is the SURE term plus the EI term. */
  lemma {:induction false} TotalOfPair(a: LossTerm, b: LossTerm, call: LossCall, eval: (LossTerm, LossCall) -> real)
    ensures Total([a, b], call, eval) == eval(a, call) + eval(b, call)
  {
    assert [a, b][..1] == [a];
    TotalOfSingle(a, call, eval);
  }

  /** A one-term list contributes that term alone. */
  lemma {:induction false} TotalOfSingle(a: LossTerm, call: LossCall, eval: (LossTerm, LossCall) -> real)
    ensures Total([a], call, eval) == eval(a, call)
  {
    assert [a][..0] == [];
  }

  /** Summing a list in two parts gives the sum of the parts' totals. */
  lemma {:induction false} TotalOfConcat(a: seq<LossTerm>, b: seq<LossTerm>, call: LossCall,
                                         eval: (LossTerm, LossCall) -> real)
    ensures Total(a + b, call, eval) == Total(a, call, eval) + Total(b, call, eval)
    decreases |b|
  {
    if b == [] {
      assert a + b == a;
    } else {
      var b' := b[..|b| - 1];
      assert (a + b)[..|a + b| - 1] == a + b';
      TotalOfConcat(a, b', call, eval);
    }
  }

  /** The loop of `ProposedLoss.forward` over `loss_fns`. */
  method SumLosses(lossFns: seq<LossTerm>, call: LossCall, eval: (LossTerm, LossCall) -> real)
    returns (loss: real)
    ensures loss == Total(lossFns, call, eval)
  {
    loss := 0.0;
    var i := 0;
    while i < |lossFns|
      invariant 0 <= i <= |lossFns|
      invariant loss == Total(lossFns[..i], call, eval)
    {
      assert lossFns[..i + 1][..i] == lossFns[..i];
      loss := loss + eval(lossFns[i], call);
      i := i + 1;
    }
    assert lossFns[..i] == lossFns;
  }

  /** The reconstruction model; `calls` counts its invocations. */
  class Network {
    const apply: Signal -> Signal
    ghost var calls: nat

    constructor (apply: Signal -> Signal)
      ensures this.apply == apply && calls == 0
    {
      this.apply := apply;
      calls := 0;
    }

    method Run(input: Signal) returns (output: Signal)
      modifies this`calls
      ensures output == apply(input) && calls == old(calls) + 1
    {
      calls := calls + 1;
      output := apply(input);
    }
  }

  /** `forward` of `SupervisedLoss`, `CSSLoss`, `Noise2InverseLoss` and `SURELoss`. */
  method SingleForward(loss: LossTerm, x: Signal, y: Signal, net: Network, physics: Physics,
                       eval: (LossTerm, LossCall) -> real) returns (value: real)
    modifies net`calls
    ensures net.calls == old(net.calls) + 1
    ensures value == eval(loss, LossCall(x, Some(net.apply(y)), y, physics, net.apply))
  {
    var xNet := net.Run(y);
    value := eval(loss, LossCall(x, Some(xNet), y, physics, net.apply));
  }

  /** `ProposedLoss.forward`. */
  method ProposedForward(lossFns: seq<LossTerm>, computeXNet: bool, x: Signal, y: Signal, net: Network,
                         physics: Physics, eval: (LossTerm, LossCall) -> real) returns (value: real)
    modifies net`calls
    ensures net.calls == old(net.calls) + (if computeXNet then 1 else 0)
    ensures value == Total(lossFns, LossCall(x, if computeXNet then Some(net.apply(y)) else None,
                                             y, physics, net.apply), eval)
  {
    var xNet: Option<Signal>;
    if computeXNet {
      var out := net.Run(y);
      xNet := Some(out);
    } else {
      xNet := None;
    }
    value := SumLosses(lossFns, LossCall(x, xNet, y, physics, net.apply), eval);
  }

  /** How many times a strategy invokes the model itself, outside its loss terms. */
  function ModelCalls(s: Strategy): nat
  {
    if s.ProposedLoss? && !s.computeXNet then 0 else 1
  }

  /** The value a strategy's `forward` returns. */
  function StrategyValue(s: Strategy, x: Signal, y: Signal, physics: Physics, model: Signal -> Signal,
                         eval: (LossTerm, LossCall) -> real): real
  {
    match s
    case ProposedLoss(lossFns, computeXNet) =>
      Total(lossFns, LossCall(x, if computeXNet then Some(model(y)) else None, y, physics, model), eval)
    case _ => eval(s.loss, LossCall(x, Some(model(y)), y, physics, model))
  }

  /** A built proposed loss: with `r2r` the model is not invoked outside the single
      random-to-random term, which gets no `x_net`; otherwise the model runs once and
      the value is the SURE term plus the EI term, both given that output. */
  lemma ProposedLossValue(s: Strategy, transform: Transform, args: ProposedArgs, sigma: real,
                          croppedDiv: bool, averagedCst: bool, margin: int,
                          x: Signal, y: Signal, physics: Physics, model: Signal -> Signal,
                          eval: (LossTerm, LossCall) -> real)
    requires BuiltProposed(s, transform, args, sigma, croppedDiv, averagedCst, margin)
    ensures args.sureAlternative == Some("r2r") ==>
              && ModelCalls(s) == 0
              && StrategyValue(s, x, y, physics, model, eval) ==
                   eval(R2REILoss(transform, sigma, args.stopGradient), LossCall(x, None, y, physics, model))
    ensures args.sureAlternative != Some("r2r") ==>
              var call := LossCall(x, Some(model(y)), y, physics, model);
              && ModelCalls(s) == 1
              && StrategyValue(s, x, y, physics, model, eval) ==
                   eval(SureGaussianLoss(sigma, croppedDiv, averagedCst, margin), call) +
                   eval(EILoss(transform, args.stopGradient, args.alphaTradeoff), call)
  {
    var call := LossCall(x, if s.computeXNet then Some(model(y)) else None, y, physics, model);
    if args.sureAlternative == Some("r2r") {
      TotalOfSingle(s.lossFns[0], call, eval);
    } else {
      TotalOfPair(s.lossFns[0], s.lossFns[1], call, eval);
    }
  }

  method StrategyForward(s: Strategy, x: Signal, y: Signal, net: Network, physics: Physics,
                         eval: (LossTerm, LossCall) -> real) returns (value: real)
    modifies net`calls
    ensures net.calls == old(net.calls) + ModelCalls(s)
    ensures value == StrategyValue(s, x, y, physics, net.apply, eval)
  {
    if s.ProposedLoss? {
      value := ProposedForward(s.lossFns, s.computeXNet, x, y, net, physics, eval);
    } else {
      value := SingleForward(s.loss, x, y, net, physics, eval);
    }
  }

  // ---------------------------------------------------------------------------
  // Loss
  // ---------------------------------------------------------------------------

  datatype MethodKind = Supervised | Css | Noise2Inverse | Sure | Proposed

  /** The `method` dispatch of `Loss.__init__`. */
  function SelectMethod(methodName: string): (r: Result<MethodKind>)
    ensures methodName == "supervised" <==> r == Ok(Supervised)
    ensures methodName == "css" <==> r == Ok(Css)
    ensures methodName == "noise2inverse" <==> r == Ok(Noise2Inverse)
    ensures methodName == "sure" <==> r == Ok(Sure)
    ensures methodName == "proposed" <==> r == Ok(Proposed)
    ensures r.Err? <==> methodName !in {"supervised", "css", "noise2inverse", "sure", "proposed"}
    ensures r.Err? ==> r.error == UnknownMethod(methodName)
  {
    if methodName == "supervised" then Ok(Supervised)
    else if methodName == "css" then Ok(Css)
    else if methodName == "noise2inverse" then Ok(Noise2Inverse)
    else if methodName == "sure" then Ok(Sure)
    else if methodName == "proposed" then Ok(Proposed)
    else Err(UnknownMethod(methodName))
  }

  /** `CropPair(location="random", size=crop_size)` with the ratio it is called with. */
  datatype CropFn = CropFn(location: string, size: nat, xySizeRatio: nat)

  /** A built `Loss`: its strategy, its optional loss-time crop and the physics that
      `Loss.__init__` hands to the strategy, which keeps it as `self.physics`. */
  datatype Loss = Loss(strategy: Strategy, cropFn: Option<CropFn>, physics: Physics)

  /** The loss-time crop ratio: `physics.rate` when the physics has that attribute, else 1. */
  function CropRatio(physics: Physics): (ratio: nat)
    ensures physics.rate.Some? ==> ratio == physics.rate.value
    ensures physics.rate.None? ==> ratio == 1
  {
    match physics.rate
    case Some(rate) => rate
    case None => 1
  }

  /** `Loss.__init__`; `homogeneousSwinir` stands for the `HOMOGENEOUS_SWINIR` environment toggle. */
  method BuildLoss(physics: Physics, proposed: ProposedArgs, scaling: ScalingBlueprint, noiseLevel: real,
                   sureCroppedDiv: bool, sureAveragedCst: bool, sureMargin: int, methodName: string,
                   cropTrainingPairs: bool, cropSize: nat, homogeneousSwinir: bool)
    returns (r: Result<Loss>)
    ensures SelectMethod(methodName).Err? ==> r == Err(UnknownMethod(methodName))
    ensures methodName in {"supervised", "css", "noise2inverse", "sure"} ==> r.Ok?
    ensures methodName == "supervised" ==> r.Ok? && r.value.strategy == SupervisedLoss(SupLoss)
    ensures methodName == "css" ==> r.Ok? && r.value.strategy == CSSLoss(SupLoss)
    ensures methodName == "noise2inverse" ==> r.Ok? && r.value.strategy == Noise2InverseLoss(SupLoss)
    ensures methodName == "sure" ==>
              r.Ok? && r.value.strategy == SURELoss(SureGaussianLoss(Sigma(noiseLevel), sureCroppedDiv,
                                                                     sureAveragedCst, sureMargin))
    ensures methodName == "proposed" ==>
              && (r.Ok? <==> SelectTransform(proposed.transforms, scaling).Ok? &&
                             proposed.sureAlternative in {None, Some("r2r")})
              && (SelectTransform(proposed.transforms, scaling).Err? ==>
                    r == Err(UnknownTransforms(proposed.transforms)))
              && (SelectTransform(proposed.transforms, scaling).Ok? &&
                  proposed.sureAlternative !in {None, Some("r2r")} ==>
                    r == Err(SureAlternativeRejected(proposed.sureAlternative)))
              && (r.Ok? ==> BuiltProposed(r.value.strategy, SelectTransform(proposed.transforms, scaling).value,
                                          proposed, Sigma(noiseLevel), sureCroppedDiv, sureAveragedCst, sureMargin))
    ensures r.Ok? ==> r.value.physics == physics
    ensures r.Ok? ==> (r.value.cropFn.Some? <==> cropTrainingPairs && !homogeneousSwinir)
    ensures r.Ok? && r.value.cropFn.Some? ==> r.value.cropFn.value == CropFn("random", cropSize, CropRatio(physics))
  {
    var kind := SelectMethod(methodName);
    if kind.Err? {
      return Err(kind.error);
    }
    var strategy: Strategy;
    match kind.value {
      case Supervised =>
        strategy := SupervisedLoss(SupLoss);
      case Css =>
        strategy := CSSLoss(SupLoss);
      case Noise2Inverse =>
        strategy := Noise2InverseLoss(SupLoss);
      case Sure =>
        strategy := SURELoss(SureGaussianLoss(Sigma(noiseLevel), sureCroppedDiv, sureAveragedCst, sureMargin));
      case Proposed =>
        var built := BuildProposed(proposed, scaling, noiseLevel, sureCroppedDiv, sureAveragedCst, sureMargin);
        if built.Err? {
          return Err(built.error);
        }
        strategy := built.value;
    }

    var cropFn: Option<CropFn>;
    if cropTrainingPairs {
      var xySizeRatio := CropRatio(physics);
      cropFn := Some(CropFn("random", cropSize, xySizeRatio));
    } else {
      cropFn := None;
    }
    if homogeneousSwinir {
      cropFn := None;
    }
    r := Ok(Loss(strategy, cropFn, physics));
  }

  /** The pair the strategy sees: re-cropped when the loss has a crop function. */
  function LossInputs(loss: Loss, cropPair: CropPair, x: Signal, y: Signal, draw: nat): (r: (Signal, Signal))
    ensures loss.cropFn.None? ==> r == (x, y)
    ensures loss.cropFn.Some? ==>
              var c := loss.cropFn.value;
              r == cropPair(c.location, c.size, c.xySizeRatio, x, y, draw)
  {
    match loss.cropFn
    case None => (x, y)
    case Some(c) => cropPair(c.location, c.size, c.xySizeRatio, x, y, draw)
  }

  /** `Loss.forward`; `draw` determines the random crop position. The strategy is
      evaluated with the physics the loss was built with. */
  method LossForward(loss: Loss, x: Signal, y: Signal, net: Network,
                     eval: (LossTerm, LossCall) -> real, cropPair: CropPair, draw: nat)
    returns (value: real)
    modifies net`calls
    ensures net.calls == old(net.calls) + ModelCalls(loss.strategy)
    ensures var (x', y') := LossInputs(loss, cropPair, x, y, draw);
            value == StrategyValue(loss.strategy, x', y', loss.physics, net.apply, eval)
    ensures loss.cropFn.None? ==> value == StrategyValue(loss.strategy, x, y, loss.physics, net.apply, eval)
  {
    var x', y' := x, y;
    if loss.cropFn.Some? {
      var pair := cropPair(loss.cropFn.value.location, loss.cropFn.value.size, loss.cropFn.value.xySizeRatio,
                           x, y, draw);
      x', y' := pair.0, pair.1;
    }
    value := StrategyForward(loss.strategy, x', y', net, loss.physics, eval);
  }

  // ---------------------------------------------------------------------------
  // get_loss
  // ---------------------------------------------------------------------------

  /** The arguments the SURE margin derivation reads. */
  datatype MarginArgs = MarginArgs(partialSure: bool, sureMargin: Option<int>, task: string, partialSureSr: bool)

  /** The SURE margin `get_loss` passes on. For deblurring it is `(kernel_size - 1) // 2`
      (Python floor division, which agrees with Dafny's `/` for the divisor 2). */
  function SureMargin(args: MarginArgs, physics: Physics): (r: Result<int>)
    ensures args.partialSure && args.sureMargin.Some? ==> r == Ok(args.sureMargin.value)
    ensures args.partialSure && args.sureMargin.None? && args.task == "deblurring" ==>
              && (physics.task != "deblurring" ==> r == Err(PhysicsTaskMismatch(physics.task)))
              && (physics.task == "deblurring" && physics.filter.None? ==> r == Err(MissingAttribute("filter")))
              && (physics.task == "deblurring" && physics.filter.Some? ==>
                    && r.Ok?
                    && var k := physics.filter.value;
                       var n := if k.height >= k.width then k.height else k.width;
                       2 * r.value + 1 <= n <= 2 * r.value + 2)
    ensures args.partialSure && args.sureMargin.None? && args.task == "sr" ==>
              r == Ok(if args.partialSureSr then 2 else 0)
    ensures args.partialSure && args.sureMargin.None? && args.task != "deblurring" && args.task != "sr" ==>
              r == Err(UnboundSureMargin(args.task))
    ensures !args.partialSure && args.sureMargin.None? ==> r == Ok(0)
    ensures !args.partialSure && args.sureMargin.Some? ==> r == Err(MarginWithoutPartialSure(args.sureMargin.value))
  {
    if args.partialSure then
      if args.sureMargin.Some? then Ok(args.sureMargin.value)
      else if args.task == "deblurring" then
        if physics.task != "deblurring" then Err(PhysicsTaskMismatch(physics.task))
        else
          match physics.filter
          case None => Err(MissingAttribute("filter"))
          case Some(kernel) =>
            var kernelSize := if kernel.height >= kernel.width then kernel.height else kernel.width;
            Ok((kernelSize - 1) / 2)
      else if args.task == "sr" then
        Ok(if args.partialSureSr then 2 else 0)
      else Err(UnboundSureMargin(args.task))
    else if args.sureMargin.Some? then Err(MarginWithoutPartialSure(args.sureMargin.value))
    else Ok(0)
  }

  /** The command-line arguments `get_loss` reads. */
  datatype LossArgs = LossArgs(
    margin: MarginArgs,
    methodName: string,
    noiseLevel: real,
    sureCroppedDiv: bool,
    sureAveragedCst: bool,
    cropTrainingPairs: bool,
    cropSize: nat,
    proposed: ProposedArgs,
    scaling: ScalingBlueprint)

  method GetLoss(args: LossArgs, physics: Physics, homogeneousSwinir: bool) returns (r: Result<Loss>)
    ensures SureMargin(args.margin, physics).Err? ==> r == Err(SureMargin(args.margin, physics).error)
    ensures SureMargin(args.margin, physics).Ok? && SelectMethod(args.methodName).Err? ==>
              r == Err(UnknownMethod(args.methodName))
    ensures r.Ok? ==> SureMargin(args.margin, physics).Ok? && SelectMethod(args.methodName).Ok?
    ensures (SureMargin(args.margin, physics).Ok? &&
             args.methodName in {"supervised", "css", "noise2inverse", "sure"}) ==> r.Ok?
    ensures r.Ok? && args.methodName == "supervised" ==> r.value.strategy == SupervisedLoss(SupLoss)
    ensures r.Ok? && args.methodName == "css" ==> r.value.strategy == CSSLoss(SupLoss)
    ensures r.Ok? && args.methodName == "noise2inverse" ==> r.value.strategy == Noise2InverseLoss(SupLoss)
    ensures r.Ok? && args.methodName == "sure" ==>
              r.value.strategy == SURELoss(SureGaussianLoss(Sigma(args.noiseLevel), args.sureCroppedDiv,
                                                            args.sureAveragedCst, SureMargin(args.margin, physics).value))
    ensures SureMargin(args.margin, physics).Ok? && args.methodName == "proposed" ==>
              var transform := SelectTransform(args.proposed.transforms, args.scaling);
              && (r.Ok? <==> transform.Ok? && args.proposed.sureAlternative in {None, Some("r2r")})
              && (transform.Err? ==> r == Err(UnknownTransforms(args.proposed.transforms)))
              && (transform.Ok? && args.proposed.sureAlternative !in {None, Some("r2r")} ==>
                    r == Err(SureAlternativeRejected(args.proposed.sureAlternative)))
              && (r.Ok? ==> BuiltProposed(r.value.strategy, transform.value, args.proposed, Sigma(args.noiseLevel),
                                          args.sureCroppedDiv, args.sureAveragedCst,
                                          SureMargin(args.margin, physics).value))
    ensures r.Ok? ==> r.value.physics == physics
    ensures r.Ok? ==> (r.value.cropFn.Some? <==> args.cropTrainingPairs && !homogeneousSwinir)
    ensures r.Ok? && r.value.cropFn.Some? ==>
              r.value.cropFn.value == CropFn("random", args.cropSize, CropRatio(physics))
  {
    var margin := SureMargin(args.margin, physics);
    if margin.Err? {
      return Err(margin.error);
    }
    r := BuildLoss(physics, args.proposed, args.scaling, args.noiseLevel, args.sureCroppedDiv,
                   args.sureAveragedCst, margin.value, args.methodName, args.cropTrainingPairs,
                   args.cropSize, homogeneousSwinir);
  }
}
