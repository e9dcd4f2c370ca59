/** Sample construction: the ground-truth provider with its memoisation cache,
    the per-sample pipeline of `Dataset.__getitem__`, and the flag wiring of
    `get_dataset`. */
module Datasets {
  import opened Base
  import opened Signals

  // ---------------------------------------------------------------------------
  // Ground-truth provider
  // ---------------------------------------------------------------------------

  datatype BackendKind = Div2K | Urban100 | TomographyDataset | SingleImageDataset

  /** The `dataset_name` dispatch of `GroundTruthDataset.__init__`. */
  function SelectBackend(datasetName: string): (r: Result<BackendKind>)
    ensures datasetName == "div2k" <==> r == Ok(Div2K)
    ensures datasetName == "urban100" <==> r == Ok(Urban100)
    ensures datasetName == "ct" <==> r == Ok(TomographyDataset)
    ensures datasetName == "single_image" <==> r == Ok(SingleImageDataset)
    ensures r.Err? <==> datasetName !in {"div2k", "urban100", "ct", "single_image"}
    ensures r.Err? ==> r.error == UnknownDataset(datasetName)
  {
    if datasetName == "div2k" then Ok(Div2K)
    else if datasetName == "urban100" then Ok(Urban100)
    else if datasetName == "ct" then Ok(TomographyDataset)
    else if datasetName == "single_image" then Ok(SingleImageDataset)
    else Err(UnknownDataset(datasetName))
  }

  /** A concrete dataset as the provider sees it: its length, its items and,
      when the backend defines one, its `get_unique_id`. */
  datatype Backend = Backend(length: nat, item: nat -> Signal, uniqueId: Option<nat -> int>)

  /** The `size` argument of torchvision's `resize`: one edge length or an exact size. */
  datatype ResizeTarget = Edge(length: nat) | Exact(height: nat, width: nat)

  /** The key `(args, frozenset(kwargs.items()))` of the memoisation cache. The only
      call site is `dataset[index]`, so `args == (self, index)` and there are no kwargs. */
  datatype CacheKey = CacheKey(owner: GroundTruthDataset, index: nat)

  /** The dictionary captured by `memoize_load_image`. There is one per decorated
      function, so all providers share it; their keys differ because `self` is part of them. */
  class ImageCache {
    var entries: map<CacheKey, Signal>

    constructor ()
      ensures entries == map[]
    {
      entries := map[];
    }
  }

  class GroundTruthDataset {
    const backend: Backend
    const size: Option<ResizeTarget>
    const resize: (Signal, ResizeTarget) -> Signal
    const memoizeGt: bool
    const cache: ImageCache
    /** How many times the undecorated `__getitem__` body has run. */
    ghost var computations: nat

    constructor (backend: Backend, size: Option<ResizeTarget>, resize: (Signal, ResizeTarget) -> Signal,
                 memoizeGt: bool, cache: ImageCache)
      ensures this.backend == backend && this.size == size && this.resize == resize
      ensures this.memoizeGt == memoizeGt && this.cache == cache
      ensures computations == 0 && Coherent()
    {
      this.backend := backend;
      this.size := size;
      this.resize := resize;
      this.memoizeGt := memoizeGt;
      this.cache := cache;
      computations := 0;
    }

    /** `__len__`: the number of items of the backend. */
    function Length(): (n: nat)
      ensures n == backend.length
    {
      backend.length
    }

    /** `get_unique_id`: the backend's own id when it has `get_unique_id`, else the index. */
    function GetUniqueId(index: nat): (id: int)
      ensures backend.uniqueId.Some? ==> id == backend.uniqueId.value(index)
      ensures backend.uniqueId.None? ==> id == index
    {
      match backend.uniqueId
      case Some(f) => f(index)
      case None => index
    }

    /** The body of `__getitem__` before decoration: load, then resize when a size is set. */
    function Load(index: nat): (x: Signal)
      ensures size.None? ==> x == backend.item(index)
      ensures size.Some? ==> x == resize(backend.item(index), size.value)
    {
      var x := backend.item(index);
      if size.None? then x else resize(x, size.value)
    }

    /** Every entry this provider put into the shared cache is what loading would give. */
    ghost predicate Coherent()
      reads this, cache
    {
      forall k | k in cache.entries && k.owner == this :: cache.entries[k] == Load(k.index)
    }

    /** `__getitem__` as decorated by `memoize_load_image`. */
    method GetItem(index: nat) returns (x: Signal)
      requires Coherent()
      modifies this`computations, cache
      ensures Coherent()
      ensures x == Load(index)
      ensures !memoizeGt ==> cache.entries == old(cache.entries) && computations == old(computations) + 1
      ensures memoizeGt ==> CacheKey(this, index) in cache.entries && x == cache.entries[CacheKey(this, index)]
      ensures memoizeGt && CacheKey(this, index) in old(cache.entries) ==>
                x == old(cache.entries[CacheKey(this, index)]) &&
                cache.entries == old(cache.entries) && computations == old(computations)
      ensures memoizeGt && CacheKey(this, index) !in old(cache.entries) ==>
                cache.entries == old(cache.entries)[CacheKey(this, index) := x] &&
                computations == old(computations) + 1
      ensures forall k | k in old(cache.entries) :: k in cache.entries && cache.entries[k] == old(cache.entries[k])
    {
      if !memoizeGt {
        computations := computations + 1;
        x := Load(index);
      } else {
        var key := CacheKey(this, index);
        if key !in cache.entries {
          computations := computations + 1;
          x := Load(index);
          cache.entries := cache.entries[key := x];
        }
        x := cache.entries[key];
      }
    }
  }

  // ---------------------------------------------------------------------------
  // Pair assembly
  // ---------------------------------------------------------------------------

  /** Foreign code the pipeline calls: backend construction (kind and, except for the
      single-image backend, the split), bicubic resize, `Noise2InverseTransform`
      (task, filter, inverse, x, y) and `CropPair`. */
  datatype Collaborators = Collaborators(
    openBackend: (BackendKind, Option<string>) -> Backend,
    resize: (Signal, ResizeTarget) -> Signal,
    noise2inverse: (string, Option<Kernel>, Signal -> Signal, Signal, Signal) -> (Signal, Signal),
    cropPair: CropPair)

  /** The outcomes of the random generators consulted by one `__getitem__` call:
      the css pre-degradation, an unseeded measurement and the random crop position. */
  datatype Draws = Draws(proxy: nat, measurement: nat, crop: nat)

  /** The ratio between target and measurement sizes used to align crops. */
  function XySizeRatio(p: Physics): (r: Result<nat>)
    ensures p.task == "sr" && p.ratio.Some? ==> r == Ok(p.ratio.value)
    ensures p.task == "sr" && p.ratio.None? ==> r == Err(MissingAttribute("ratio"))
    ensures p.task != "sr" ==> r == Ok(1)
  {
    if p.task == "sr" then
      match p.ratio
      case Some(ratio) => Ok(ratio)
      case None => Err(MissingAttribute("ratio"))
    else Ok(1)
  }

  datatype PrepareTrainingPairs = PrepareTrainingPairs(cropSize: nat, cropLocation: string) {
    /** `forward`: a paired crop whose sizes differ by the ratio. */
    function Forward(physics: Physics, cropPair: CropPair, x: Signal, y: Signal, draw: nat): (r: Result<(Signal, Signal)>)
      ensures r.Err? <==> XySizeRatio(physics).Err?
      ensures r.Err? ==> r.error == MissingAttribute("ratio") && physics.task == "sr"
      ensures r.Ok? ==> r.value == cropPair(cropLocation, cropSize, XySizeRatio(physics).value, x, y, draw)
    {
      match XySizeRatio(physics)
      case Err(e) => Err(e)
      case Ok(ratio) => Ok(cropPair(cropLocation, cropSize, ratio, x, y, draw))
    }
  }

  /** Everything `Dataset.__getitem__` consults besides the ground-truth provider. */
  datatype SampleConfig = SampleConfig(
    purpose: string,
    physics: Physics,
    css: bool,
    noise2inverse: bool,
    uniqueSeeds: bool,
    prepare: PrepareTrainingPairs,
    tools: Collaborators)

  /** The seed policy: reproducible measurements for testing, fresh randomness otherwise. */
  function MeasurementSeed(purpose: string, uniqueSeeds: bool, uniqueId: int): (seed: Option<int>)
    ensures purpose == "test" && uniqueSeeds ==> seed == Some(uniqueId)
    ensures purpose == "test" && !uniqueSeeds ==> seed == Some(0)
    ensures purpose != "test" ==> seed == None
  {
    if purpose == "test" then
      if uniqueSeeds then Some(uniqueId) else Some(0)
    else None
  }

  /** The ground truth after the optional css pre-degradation, and its measurement. */
  function Measure(cfg: SampleConfig, x0: Signal, uniqueId: int, draws: Draws): (r: (Signal, Signal))
    ensures !cfg.css ==> r.0 == x0
    ensures cfg.purpose == "test" ==> r.1 == cfg.physics.degradeSeeded(r.0, if cfg.uniqueSeeds then uniqueId else 0)
    ensures cfg.purpose != "test" ==> r.1 == cfg.physics.degradeUnseeded(r.0, draws.measurement)
  {
    var x := if cfg.css then RandomlyDegrade(cfg.physics, x0, None, draws.proxy) else x0;
    (x, RandomlyDegrade(cfg.physics, x, MeasurementSeed(cfg.purpose, cfg.uniqueSeeds, uniqueId), draws.measurement))
  }

  /** The train branch: optional noise2inverse splitting, then the paired crop. */
  function TrainPair(cfg: SampleConfig, x: Signal, y: Signal, draws: Draws): (r: Result<(Signal, Signal)>)
    ensures r.Err? <==> XySizeRatio(cfg.physics).Err?
    ensures !cfg.noise2inverse && r.Ok? ==>
              r.value == cfg.tools.cropPair(cfg.prepare.cropLocation, cfg.prepare.cropSize,
                                            XySizeRatio(cfg.physics).value, x, y, draws.crop)
  {
    var (x', y') :=
      if cfg.noise2inverse
      then cfg.tools.noise2inverse(cfg.physics.task, cfg.physics.filter, cfg.physics.pseudoInverse, x, y)
      else (x, y);
    cfg.prepare.Forward(cfg.physics, cfg.tools.cropPair, x', y', draws.crop)
  }

  /** The test branch: the shape fix-ups. */
  function TestPair(cfg: SampleConfig, x: Signal, y: Signal): (r: Result<(Signal, Signal)>)
    ensures r.Err? ==> r.error == MissingAttribute("ratio") && cfg.physics.task == "sr" && cfg.physics.ratio.None?
    ensures r.Ok? ==> r.value.1 == (if cfg.noise2inverse && cfg.physics.task == "deblurring" then EvenTruncate(y) else y)
    ensures r.Ok? && x.shape == r.value.1.shape ==> r.value.0 == x
    ensures cfg.physics.task != "sr" ==> r.Ok?
  {
    var y' := if cfg.noise2inverse && cfg.physics.task == "deblurring" then EvenTruncate(y) else y;
    if x.shape == y'.shape then Ok((x, y'))
    else
      match XySizeRatio(cfg.physics)
      case Err(e) => Err(e)
      case Ok(f) => Ok((CropTopLeft(x, y'.shape.height * f, y'.shape.width * f), y'))
  }

  /** What `Dataset.__getitem__` returns for ground truth `x0`. */
  function Sample(cfg: SampleConfig, x0: Signal, uniqueId: int, draws: Draws): (r: Result<(Signal, Signal)>)
    ensures r.Ok? ==> cfg.purpose in {"train", "test"}
    ensures r.Err? ==> r.error == UnknownPurpose(cfg.purpose) || r.error == MissingAttribute("ratio")
    ensures cfg.purpose in {"train", "test"} && cfg.physics.task != "sr" ==> r.Ok?
  {
    var (x, y) := Measure(cfg, x0, uniqueId, draws);
    if cfg.purpose == "train" then TrainPair(cfg, x, y, draws)
    else if cfg.purpose == "test" then TestPair(cfg, x, y)
    else Err(UnknownPurpose(cfg.purpose))
  }

  /** With the css pre-degradation off, a test sample consults no random generator:
      every call for the same ground truth and id gives the same pair. */
  lemma TestSampleIsReproducible(cfg: SampleConfig, x0: Signal, uniqueId: int, d1: Draws, d2: Draws)
    requires cfg.purpose == "test" && !cfg.css
    ensures Sample(cfg, x0, uniqueId, d1) == Sample(cfg, x0, uniqueId, d2)
  {
  }

  /** A test measurement is the seeded degradation, with the unique id or the shared seed 0. */
  lemma TestMeasurementIsSeeded(cfg: SampleConfig, x0: Signal, uniqueId: int, d: Draws)
    requires cfg.purpose == "test"
    ensures var (x, y) := Measure(cfg, x0, uniqueId, d);
            y == cfg.physics.degradeSeeded(x, if cfg.uniqueSeeds then uniqueId else 0)
  {
  }

  /** A train measurement draws fresh randomness and does not depend on the unique id. */
  lemma TrainMeasurementIsUnseeded(cfg: SampleConfig, x0: Signal, id1: int, id2: int, d: Draws)
    requires cfg.purpose == "train"
    ensures var (x, y) := Measure(cfg, x0, id1, d);
            y == cfg.physics.degradeUnseeded(x, d.measurement)
    ensures Measure(cfg, x0, id1, d) == Measure(cfg, x0, id2, d)
  {
  }

  /** With css, the signal that is measured, and kept as the target, is one unseeded
      degradation of the ground truth; otherwise it is the ground truth itself. */
  lemma CssReplacesGroundTruth(cfg: SampleConfig, x0: Signal, uniqueId: int, d: Draws)
    ensures var (x, y) := Measure(cfg, x0, uniqueId, d);
            && x == (if cfg.css then cfg.physics.degradeUnseeded(x0, d.proxy) else x0)
            && y == RandomlyDegrade(cfg.physics, x, MeasurementSeed(cfg.purpose, cfg.uniqueSeeds, uniqueId), d.measurement)
  {
  }

  /** A css test target is a top-left window of the degraded proxy, not of the ground truth. */
  lemma CssTestTargetIsProxy(cfg: SampleConfig, x0: Signal, uniqueId: int, d: Draws)
    requires cfg.css && cfg.purpose == "test" && Sample(cfg, x0, uniqueId, d).Ok?
    ensures var proxy := cfg.physics.degradeUnseeded(x0, d.proxy);
            var x := Sample(cfg, x0, uniqueId, d).value.0;
            && x.shape.channels == proxy.shape.channels
            && forall c: nat, i: nat, j: nat | i < x.shape.height && j < x.shape.width &&
                                                i < proxy.shape.height && j < proxy.shape.width
                 :: x.pixel(c, i, j) == proxy.pixel(c, i, j)
  {
  }

  /** The test-time fix-ups: the measurement is truncated to even sizes only for
      noise2inverse deblurring, and the target is left alone when the shapes agree and
      otherwise cropped from the top-left to the measurement's size times the ratio. */
  lemma TestShapeFixups(cfg: SampleConfig, x0: Signal, uniqueId: int, d: Draws)
    requires cfg.purpose == "test" && Sample(cfg, x0, uniqueId, d).Ok?
    ensures var (x1, m) := Measure(cfg, x0, uniqueId, d);
            var (x, y) := Sample(cfg, x0, uniqueId, d).value;
            && y == (if cfg.noise2inverse && cfg.physics.task == "deblurring" then EvenTruncate(m) else m)
            && (x1.shape == y.shape ==> x == x1)
            && (x1.shape != y.shape ==>
                  && XySizeRatio(cfg.physics).Ok?
                  && x == CropTopLeft(x1, y.shape.height * XySizeRatio(cfg.physics).value,
                                      y.shape.width * XySizeRatio(cfg.physics).value))
  {
  }

  /** The sample-pair invariant at test time: when the degradation keeps the channel
      count, the target has the measurement's shape or that shape scaled by the ratio. */
  lemma TestPairAligned(cfg: SampleConfig, x0: Signal, uniqueId: int, d: Draws)
    requires cfg.purpose == "test" && Sample(cfg, x0, uniqueId, d).Ok?
    requires var (x1, m) := Measure(cfg, x0, uniqueId, d); x1.shape.channels == m.shape.channels
    ensures var (x, y) := Sample(cfg, x0, uniqueId, d).value;
            || x.shape == y.shape
            || (&& XySizeRatio(cfg.physics).Ok?
                && var f := XySizeRatio(cfg.physics).value;
                   x.shape == Shape(y.shape.channels, y.shape.height * f, y.shape.width * f))
    ensures cfg.physics.task != "sr" ==>
              Sample(cfg, x0, uniqueId, d).value.0.shape == Sample(cfg, x0, uniqueId, d).value.1.shape
  {
  }

  /** Supervised training end to end: a fresh measurement of the ground truth, then the
      paired crop at the task's ratio. */
  lemma TrainSupervisedSample(cfg: SampleConfig, x0: Signal, uniqueId: int, d: Draws)
    requires cfg.purpose == "train" && !cfg.css && !cfg.noise2inverse && XySizeRatio(cfg.physics).Ok?
    ensures Sample(cfg, x0, uniqueId, d) ==
              Ok(cfg.tools.cropPair(cfg.prepare.cropLocation, cfg.prepare.cropSize, XySizeRatio(cfg.physics).value,
                                    x0, cfg.physics.degradeUnseeded(x0, d.measurement), d.crop))
  {
  }

  /** css training end to end: the pair handed to the crop is the proxy and its own
      fresh measurement. */
  lemma CssTrainSample(cfg: SampleConfig, x0: Signal, uniqueId: int, d: Draws)
    requires cfg.purpose == "train" && cfg.css && !cfg.noise2inverse && XySizeRatio(cfg.physics).Ok?
    ensures var proxy := cfg.physics.degradeUnseeded(x0, d.proxy);
            Sample(cfg, x0, uniqueId, d) ==
              Ok(cfg.tools.cropPair(cfg.prepare.cropLocation, cfg.prepare.cropSize, XySizeRatio(cfg.physics).value,
                                    proxy, cfg.physics.degradeUnseeded(proxy, d.measurement), d.crop))
  {
  }

  /** noise2inverse training: the split pair, not the measured pair, is cropped. */
  lemma Noise2InverseTrainSample(cfg: SampleConfig, x0: Signal, uniqueId: int, d: Draws)
    requires cfg.purpose == "train" && cfg.noise2inverse && XySizeRatio(cfg.physics).Ok?
    ensures var (x1, m) := Measure(cfg, x0, uniqueId, d);
            var split := cfg.tools.noise2inverse(cfg.physics.task, cfg.physics.filter, cfg.physics.pseudoInverse, x1, m);
            Sample(cfg, x0, uniqueId, d) ==
              Ok(cfg.tools.cropPair(cfg.prepare.cropLocation, cfg.prepare.cropSize, XySizeRatio(cfg.physics).value,
                                    split.0, split.1, d.crop))
  {
  }

  /** A purpose other than train or test is rejected. */
  lemma UnknownPurposeFails(cfg: SampleConfig, x0: Signal, uniqueId: int, d: Draws)
    requires cfg.purpose != "train" && cfg.purpose != "test"
    ensures Sample(cfg, x0, uniqueId, d) == Err(UnknownPurpose(cfg.purpose))
  {
  }

  class Dataset {
    const config: SampleConfig
    const deterministicMeasurements: bool := config.purpose == "test"
    const groundTruth: GroundTruthDataset

    /** `Dataset.__init__` once the dataset name has been resolved to a backend kind. */
    constructor (purpose: string, physics: Physics, css: bool, noise2inverse: bool, split: string,
                 memoizeGt: bool, uniqueSeeds: bool, kind: BackendKind, size: Option<ResizeTarget>,
                 prepare: PrepareTrainingPairs, tools: Collaborators, cache: ImageCache)
      ensures config == SampleConfig(purpose, physics, css, noise2inverse, uniqueSeeds, prepare, tools)
      ensures deterministicMeasurements == (purpose == "test")
      ensures fresh(groundTruth) && groundTruth.Coherent() && groundTruth.computations == 0
      ensures groundTruth.backend == tools.openBackend(kind, if kind == SingleImageDataset then None else Some(split))
      ensures groundTruth.size == size && groundTruth.resize == tools.resize
      ensures groundTruth.memoizeGt == memoizeGt && groundTruth.cache == cache
    {
      config := SampleConfig(purpose, physics, css, noise2inverse, uniqueSeeds, prepare, tools);
      var backend := tools.openBackend(kind, if kind == SingleImageDataset then None else Some(split));
      groundTruth := new GroundTruthDataset(backend, size, tools.resize, memoizeGt, cache);
    }

    /** `__len__` defers to the ground-truth provider, which defers to the backend. */
    function Length(): (n: nat)
      ensures n == groundTruth.backend.length
    {
      groundTruth.Length()
    }

    method GetItem(index: nat, draws: Draws) returns (r: Result<(Signal, Signal)>)
      requires groundTruth.Coherent()
      modifies groundTruth`computations, groundTruth.cache
      ensures groundTruth.Coherent()
      ensures r == Sample(config, groundTruth.Load(index), groundTruth.GetUniqueId(index), draws)
      ensures groundTruth.cache.entries ==
                if groundTruth.memoizeGt
                then old(groundTruth.cache.entries)[CacheKey(groundTruth, index) := groundTruth.Load(index)]
                else old(groundTruth.cache.entries)
      ensures groundTruth.computations ==
                old(groundTruth.computations) +
                (if groundTruth.memoizeGt && CacheKey(groundTruth, index) in old(groundTruth.cache.entries) then 0 else 1)
      ensures forall k | k in old(groundTruth.cache.entries) ::
                k in groundTruth.cache.entries && groundTruth.cache.entries[k] == old(groundTruth.cache.entries[k])
    {
      ghost var before := groundTruth.cache.entries;
      var x := groundTruth.GetItem(index);
      if groundTruth.memoizeGt && CacheKey(groundTruth, index) in before {
        assert before[CacheKey(groundTruth, index)] == groundTruth.Load(index);
        assert groundTruth.cache.entries == before[CacheKey(groundTruth, index) := groundTruth.Load(index)];
      }

      if config.css {
        x := RandomlyDegrade(config.physics, x, None, draws.proxy);
      }

      var seed: Option<int>;
      if deterministicMeasurements {
        if config.uniqueSeeds {
          seed := Some(groundTruth.GetUniqueId(index));
        } else {
          seed := Some(0);
        }
      } else {
        seed := None;
      }

      var y := RandomlyDegrade(config.physics, x, seed, draws.measurement);

      if config.purpose == "train" {
        if config.noise2inverse {
          var pair := config.tools.noise2inverse(config.physics.task, config.physics.filter,
                                                 config.physics.pseudoInverse, x, y);
          x, y := pair.0, pair.1;
        }
        r := config.prepare.Forward(config.physics, config.tools.cropPair, x, y, draws.crop);
      } else if config.purpose == "test" {
        if config.noise2inverse {
          if config.physics.task == "deblurring" {
            y := EvenTruncate(y);
          }
        }
        if x.shape != y.shape {
          var h, w := y.shape.height, y.shape.width;
          var f := XySizeRatio(config.physics);
          if f.Err? {
            return Err(f.error);
          }
          x := CropTopLeft(x, h * f.value, w * f.value);
        }
        r := Ok((x, y));
      } else {
        r := Err(UnknownPurpose(config.purpose));
      }
    }
  }

  /** Two test-time reads of the same index return the same pair, whatever the
      random generators do and whether or not the ground truth is served from the cache. */
  method RepeatedTestItem(ds: Dataset, index: nat, d1: Draws, d2: Draws)
    returns (r1: Result<(Signal, Signal)>, r2: Result<(Signal, Signal)>)
    requires ds.groundTruth.Coherent() && ds.config.purpose == "test" && !ds.config.css
    modifies ds.groundTruth`computations, ds.groundTruth.cache
    ensures r1 == r2
  {
    r1 := ds.GetItem(index, d1);
    r2 := ds.GetItem(index, d2);
    TestSampleIsReproducible(ds.config, ds.groundTruth.Load(index), ds.groundTruth.GetUniqueId(index), d1, d2);
  }

  // ---------------------------------------------------------------------------
  // get_dataset
  // ---------------------------------------------------------------------------

  /** The command-line arguments `get_dataset` reads. */
  datatype DatasetArgs = DatasetArgs(
    methodName: string,
    noise2inverse: bool,
    split: string,
    memoizeGt: bool,
    dataset: string,
    size: Option<ResizeTarget>,
    cropSize: nat,
    cropLocation: string,
    uniqueSeeds: bool)

  datatype DatasetFlags = DatasetFlags(noise2inverse: bool, css: bool, split: string, memoizeGt: bool)

  /** The purpose-dependent flags `get_dataset` passes to `Dataset`. */
  function FlagsFor(args: DatasetArgs, purpose: string): (r: Result<DatasetFlags>)
    ensures r.Ok? <==> purpose == "test" || purpose == "train"
    ensures r.Err? ==> r.error == UnknownPurpose(purpose)
    ensures purpose == "test" && r.Ok? ==>
              !r.value.css && !r.value.memoizeGt &&
              r.value.noise2inverse == args.noise2inverse && r.value.split == args.split
    ensures purpose == "train" && r.Ok? ==>
              r.value.split == "train" && r.value.memoizeGt == args.memoizeGt &&
              (r.value.css <==> args.methodName == "css") &&
              (r.value.noise2inverse <==> args.methodName == "noise2inverse")
    ensures purpose == "train" && r.Ok? ==> !(r.value.css && r.value.noise2inverse)
  {
    if purpose == "test" then
      Ok(DatasetFlags(args.noise2inverse, false, args.split, false))
    else if purpose == "train" then
      Ok(DatasetFlags(args.methodName == "noise2inverse", args.methodName == "css", "train", args.memoizeGt))
    else Err(UnknownPurpose(purpose))
  }

  /** `get_dataset`: the purpose check, then `Dataset.__init__`, whose provider
      rejects an unknown dataset name. */
  method GetDataset(args: DatasetArgs, purpose: string, physics: Physics, tools: Collaborators,
                    cache: ImageCache) returns (r: Result<Dataset>)
    ensures FlagsFor(args, purpose).Err? ==> r == Err(FlagsFor(args, purpose).error)
    ensures FlagsFor(args, purpose).Ok? && SelectBackend(args.dataset).Err? ==>
              r == Err(UnknownDataset(args.dataset))
    ensures r.Ok? <==> FlagsFor(args, purpose).Ok? && SelectBackend(args.dataset).Ok?
    ensures r.Ok? ==>
              var flags := FlagsFor(args, purpose).value;
              var ds := r.value;
              && fresh(ds) && fresh(ds.groundTruth)
              && ds.config == SampleConfig(purpose, physics, flags.css, flags.noise2inverse, args.uniqueSeeds,
                                           PrepareTrainingPairs(args.cropSize, args.cropLocation), tools)
              && ds.deterministicMeasurements == (purpose == "test")
              && ds.groundTruth.Coherent() && ds.groundTruth.cache == cache
              && ds.groundTruth.memoizeGt == flags.memoizeGt && ds.groundTruth.size == args.size
              && ds.groundTruth.resize == tools.resize && ds.groundTruth.computations == 0
              && var kind := SelectBackend(args.dataset).value;
                 ds.groundTruth.backend == tools.openBackend(kind, if kind == SingleImageDataset then None
                                                                   else Some(flags.split))
  {
    var flags := FlagsFor(args, purpose);
    if flags.Err? {
      return Err(flags.error);
    }
    var kind := SelectBackend(args.dataset);
    if kind.Err? {
      return Err(kind.error);
    }
    var ds := new Dataset(purpose, physics, flags.value.css, flags.value.noise2inverse, flags.value.split,
                          flags.value.memoizeGt, args.uniqueSeeds, kind.value, args.size,
                          PrepareTrainingPairs(args.cropSize, args.cropLocation), tools, cache);
    r := Ok(ds);
  }
}
