# Sample construction and loss composition for Scale-EI, in Dafny

This project models the decision and shape logic of two Python modules of the
Scale-EI repository: `src/datasets/__init__.py`, which builds (target,
measurement) pairs for training and testing image-reconstruction models, and
`src/losses/__init__.py`, which selects and composes the training losses.

Tensors are abstracted to a `Signal`: a shape `(C, H, W)` and a pixel function
whose values are opaque reals. Everything the code delegates to other
libraries is a function-typed parameter: the seeded and unseeded forward
degradation (`randomly_degrade`), `A_dagger`, `Noise2InverseTransform`,
`CropPair`, the bicubic resize, the dataset backends, and the deepinv losses
(`SupLoss`, `SureGaussianLoss`, `EILoss`, `R2REILoss`). Randomness is a
parameter too: `Draws` holds the outcomes of the random generators that one
`__getitem__` call consults (css pre-degradation, unseeded measurement, crop
position), so a statement such as "test samples are reproducible" becomes
"the result does not depend on the draws".

Files, one module each:

- `base.dfy` (`Base`): `Option`, the `Error` taxonomy (one constructor per
  kind of `ValueError`, `AssertionError`, `AttributeError` and
  `UnboundLocalError` the code can raise) and `Result`.
- `signals.dfy` (`Signals`): shapes, signals, Python slicing, torchvision's
  top-left `crop`, and the attributes of a physics object that the code reads.
- `datasets.dfy` (`Datasets`): the ground-truth provider with its memoisation
  cache (classes `ImageCache` and `GroundTruthDataset`), the per-sample
  pipeline (pure specification `Sample`, imperative `Dataset.GetItem` proved
  equal to it), and `get_dataset`.
- `losses.dfy` (`Losses`): method and transform dispatch, `ProposedLoss`
  construction, the summation loop, the `forward` methods with a call-counting
  model (`Network`), `Loss`, and the margin derivation of `get_loss`.

The memoisation cache is a single dictionary shared by every provider (it is
captured once by the decorator), keyed by `(self, index)`. The model keeps one
shared `ImageCache` object with keys `CacheKey(owner, index)`;
`GroundTruthDataset.Coherent()` says that every entry a provider stored equals
what loading that index computes, so serving from the cache is transparent.
`Dataset.__init__` raises when its provider rejects the dataset name; in the
model that name is resolved by `SelectBackend` inside `GetDataset`, and the
`Dataset` constructor receives the resolved backend kind.
`__len__` of both classes is `Length`, which returns the backend's length.
Each loss strategy keeps the physics it was built with (`self.physics`); the
model stores it once in `Loss`, and `LossForward` evaluates the strategy with it.

Behaviour of the code worth knowing, which the model reproduces:

- The css pre-degradation is applied whenever the `Dataset` has `css` set, in
  either purpose; it is `get_dataset` that forces `css = False` for testing.
- The test-time crop takes the measurement's height and width times the ratio
  and crops the target to that size; torchvision's `crop` pads with zeros when
  the target is smaller, and `CropTopLeft` models that padding.
- The dataset-side ratio comes from `physics.ratio` (only for `sr`), the
  loss-side ratio from `physics.rate` (any task, 1 when absent); the two are
  kept separate, as in the code.

## Model

| member | source | states |
|---|---|---|
| `Signals.EvenTruncate` | src/datasets/__init__.py:201-206 | channel count kept; each spatial size becomes even, at most the original and smaller by at most 1; the kept top-left pixels are unchanged |
| `Signals.CropTopLeft` | src/datasets/__init__.py:216 | result has exactly the requested height and width and the same channels; each pixel is the source pixel from the top-left corner, or 0 beyond the source border |
| `Datasets.SelectBackend` | src/datasets/__init__.py:32-41 | each of the four dataset names selects exactly its backend; any other name fails with an unknown-dataset error |
| `Datasets.GroundTruthDataset.GetUniqueId` | src/datasets/__init__.py:43-48 | the backend's own id when it has one, else the index |
| `Datasets.ImageCache.constructor` | src/datasets/__init__.py:52 | the cache starts empty |
| `Datasets.GroundTruthDataset.constructor` | src/datasets/__init__.py:27-41 | stores size, memoisation flag, backend and the shared cache; a new provider has no stale cache entries |
| `Datasets.GroundTruthDataset.GetItem` | src/datasets/__init__.py:55-68 | without memoisation every call recomputes and the cache is untouched; with it, a miss computes once and stores the result under `(self, index)`, a hit returns the stored value without recomputing; entries are never overwritten or removed; the result always equals the loaded (and resized) image |
| `Datasets.GroundTruthDataset.Load` | src/datasets/__init__.py:73-84 | the backend's item, resized to the configured size when one is set and untouched otherwise |
| `Datasets.GroundTruthDataset.Length` | src/datasets/__init__.py:86-87 | the backend's length |
| `Datasets.XySizeRatio` | src/datasets/__init__.py:106-109 | `physics.ratio` for `sr` (an attribute error if the physics has none), 1 for every other task |
| `Datasets.MeasurementSeed` | src/datasets/__init__.py:169-175 | test with unique seeds uses the unique id, test without uses 0, any other purpose is unseeded |
| `Datasets.PrepareTrainingPairs.Forward` | src/datasets/__init__.py:102-112 | fails exactly when the task is `sr` and the physics has no ratio (an attribute error); otherwise the paired crop at the configured location and size with the task ratio |
| `Datasets.Measure` | src/datasets/__init__.py:164-178 | without css the measured signal is the ground truth; a test measurement is the seeded degradation (unique id or 0), any other purpose the unseeded one with its fresh draw |
| `Datasets.TrainPair` | src/datasets/__init__.py:182-198 | fails exactly when the crop ratio is missing; without noise2inverse the measured pair itself is cropped |
| `Datasets.TestPair` | src/datasets/__init__.py:199-216 | the only failure is an `sr` physics without a ratio; the measurement is even-truncated exactly for noise2inverse deblurring; the target is kept when shapes agree; tasks other than `sr` never fail |
| `Datasets.Sample` | src/datasets/__init__.py:159-220 | succeeds only for purposes train and test, and always for them when the task is not `sr`; the only errors are an unknown purpose and a missing ratio |
| `Datasets.TestSampleIsReproducible` | src/datasets/__init__.py:169-220 | without css, a test sample does not depend on any random draw |
| `Datasets.TestMeasurementIsSeeded` | src/datasets/__init__.py:169-178 | a test measurement is the seeded degradation with the unique id or with seed 0 |
| `Datasets.TrainMeasurementIsUnseeded` | src/datasets/__init__.py:174-178 | a train measurement is the unseeded degradation with fresh randomness and does not depend on the unique id |
| `Datasets.CssReplacesGroundTruth` | src/datasets/__init__.py:164-180 | with css the measured signal (and target) is one unseeded degradation of the ground truth, else the ground truth |
| `Datasets.CssTestTargetIsProxy` | src/datasets/__init__.py:164-220 | a css test target has the proxy's channels and its pixels are the proxy's top-left pixels |
| `Datasets.TestShapeFixups` | src/datasets/__init__.py:199-216 | test: the measurement is even-truncated exactly for noise2inverse deblurring and otherwise untouched; the target is unchanged when shapes agree, else cropped top-left to the measurement's size times the ratio |
| `Datasets.TestPairAligned` | src/datasets/__init__.py:208-216 | test pairs whose degradation kept the channel count have equal shapes or target = measurement size times ratio; for tasks other than `sr` the shapes are always equal |
| `Datasets.TrainSupervisedSample` | src/datasets/__init__.py:177-198 | supervised training (super-resolution included): the crop is applied at the task ratio to the ground truth and its fresh measurement |
| `Datasets.CssTrainSample` | src/datasets/__init__.py:164-198 | css training: the crop is applied to the proxy and the proxy's fresh measurement |
| `Datasets.Noise2InverseTrainSample` | src/datasets/__init__.py:182-198 | noise2inverse training: the crop is applied to the split pair, not to the measured pair |
| `Datasets.UnknownPurposeFails` | src/datasets/__init__.py:217-218 | a purpose other than train or test fails with an unknown-purpose error |
| `Datasets.Dataset.constructor` | src/datasets/__init__.py:116-154 | stores the configuration, sets deterministic measurements exactly for test, and builds a fresh provider on the shared cache with the backend opened for the split |
| `Datasets.Dataset.Length` | src/datasets/__init__.py:156-157 | the backend's length |
| `Datasets.Dataset.GetItem` | src/datasets/__init__.py:159-220 | returns exactly `Sample` of the loaded ground truth and unique id; the new cache is the old one with `(provider, index)` bound to the loaded image when memoising, and unchanged otherwise; the provider recomputes exactly when not memoising or on a cache miss; the cache stays coherent and only grows |
| `Datasets.RepeatedTestItem` | src/datasets/__init__.py:169-178 | two test-time reads of one index (without css) return the same pair, whatever the draws and the cache state |
| `Datasets.FlagsFor` | src/datasets/__init__.py:224-235 | test forces css and memoisation off and keeps the noise2inverse flag and split; train forces split `train`, css iff method `css`, noise2inverse iff method `noise2inverse`, never both; other purposes fail |
| `Datasets.GetDataset` | src/datasets/__init__.py:223-273 | fails on an unknown purpose, then on an unknown dataset name; otherwise a fresh dataset wired with those flags on the shared cache, whose provider reads the backend of that name opened for the flags' split (no split for `single_image`), resizes with the given resize and has computed nothing yet |
| `Losses.SelectTransform` | src/losses/__init__.py:84-96 | each of the four transform names selects exactly its transform; any other name fails |
| `Losses.BuildProposed` | src/losses/__init__.py:84-131 | unknown transforms fail first, then a sure alternative outside {None, `r2r`}; with `r2r` one R2R term and no up-front model call; otherwise exactly SURE then EI and one up-front call |
| `Losses.Total` | src/losses/__init__.py:139-141 | the accumulation starts from 0 and adds the terms left to right; its laws are the single, pair and concatenation lemmas below |
| `Losses.TotalOfSingle` | src/losses/__init__.py:139-141 | a one-term list sums to that term |
| `Losses.TotalOfConcat` | src/losses/__init__.py:139-141 | the accumulated loss of two lists one after the other is the sum of their accumulated losses |
| `Losses.TotalOfPair` | src/losses/__init__.py:139-141 | a two-term list sums to the first term plus the second |
| `Losses.SumLosses` | src/losses/__init__.py:139-142 | the loop result is the left-to-right sum of all terms, starting from 0 |
| `Losses.Network.Run` | src/losses/__init__.py:25 | one model invocation, returning the model's output |
| `Losses.SingleForward` | src/losses/__init__.py:24-64 | the supervised, css, noise2inverse and SURE wrappers call the model exactly once, on `y`, and pass that output as `x_net` |
| `Losses.ProposedForward` | src/losses/__init__.py:133-142 | the model is called once when `compute_x_net`, else never, and its output (or None) is passed to every term; the value is the sum of all terms |
| `Losses.ProposedLossValue` | src/losses/__init__.py:98-142 | a built proposed loss with `r2r` calls the model 0 times and equals the R2R term without `x_net`; otherwise 1 call and SURE plus EI on the model output |
| `Losses.StrategyForward` | src/losses/__init__.py:207 | dispatch to the strategy's `forward`: model-call count and value as the strategy defines them |
| `Losses.SelectMethod` | src/losses/__init__.py:160-185 | each of the five method names selects exactly its strategy class; any other name fails |
| `Losses.CropRatio` | src/losses/__init__.py:188-191 | `physics.rate` when the attribute exists, else 1 |
| `Losses.BuildLoss` | src/losses/__init__.py:146-200 | the strategy for each method; unknown method fails; for `proposed` the errors and contents of `ProposedLoss`; the strategy keeps the given physics; a crop function exists iff crop_training_pairs and not the homogeneous toggle, with location `random`, the crop size and the rate ratio |
| `Losses.LossInputs` | src/losses/__init__.py:204-205 | the input pair itself without a crop function; with one, the pair as cropped at its location, size and ratio |
| `Losses.LossForward` | src/losses/__init__.py:203-207 | the pair is re-cropped only when a crop function exists and left unchanged otherwise; value and model calls are the strategy's, evaluated with the physics the loss was built with |
| `Losses.SureMargin` | src/losses/__init__.py:211-229 | an explicit margin wins; deblurring gives the kernel half-width m with 2m+1 <= max(kH, kW) <= 2m+2 (after asserting the physics is deblurring and reading its filter); sr gives 2 or 0; other tasks leave the margin unbound; without partial SURE the margin must be absent and becomes 0 |
| `Losses.GetLoss` | src/losses/__init__.py:210-266 | margin errors come first, then unknown methods; the four simple methods always succeed with their strategy; `proposed` succeeds iff its transforms are known and its alternative is None or `r2r`, else the unknown-transforms or rejected-alternative error; the SURE strategy and the SURE term of the proposed loss carry the derived margin; the crop function exists under the rule of `Loss`, with location `random`, the crop size and the rate ratio |

## Left out

- Tensor contents are opaque reals: only shapes and pixel positions are modelled; the bicubic resize is an abstract function, so its idempotence is not stated.
- Device placement (`.to("cpu")`, `.to(device)`) is not modelled; the cache stores the signal itself.
- `randomly_degrade`, `A_dagger`, `Noise2InverseTransform`, `CropPair`, the dataset backends and the deepinv loss mathematics are foreign code and appear only as function parameters, so the shape `(C, S, S)` of a train crop and a zero supervised loss on a perfect output are not stated.
- Floating-point arithmetic: `noise_level / 255` is exact real division and loss values are reals.
- `unsqueeze(0)`/`squeeze(0)` around the foreign calls are identities in the model.
- The `SUPERVISED_L1` environment toggle and its print: the supervised metric is always mean squared error.
- `HOMOGENEOUS_SWINIR` is the boolean parameter `homogeneousSwinir`; its print-once side effect is left out.
- The blueprint dictionaries are flattened into argument datatypes; the defaults of `PrepareTrainingPairs.__init__` are not modelled because `get_dataset` always passes both values.
- The cache key's kwargs part is always empty because the only call site is `dataset[index]`.
- The backend is assumed never to raise: `Backend.item` is total, so an index at or past the length (an IndexError) and I/O failures of the loader, which `__getitem__` passes up unchanged, are not modelled.
- Concurrent filling of the shared cache by loader workers is not modelled (the code is single-threaded).
- Datasets.TestSampleIsReproducible: stated only without css, because a `Dataset` built directly with css and purpose test pre-degrades without a seed; `get_dataset` never builds one.
