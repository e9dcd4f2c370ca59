/** Signals (channel x height x width images) and the parts of a physics
    (forward degradation) object that the sample and loss code consult.
    Pixel intensities are opaque reals: only shapes and which pixel ends up
    where are modelled. */
module Signals {
  import opened Base

  datatype Shape = Shape(channels: nat, height: nat, width: nat)

  /** A `(C, H, W)` tensor; `pixel(c, i, j)` is meaningful for `c < C`, `i < H`, `j < W`. */
  datatype Signal = Signal(shape: Shape, pixel: (nat, nat, nat) -> real)

  function Min(a: nat, b: nat): nat { if a <= b then a else b }

  /** Python slicing `s[:, :h, :w]`: the bounds are clamped to the signal's size. */
  function Slice(s: Signal, h: nat, w: nat): Signal
  {
    Signal(Shape(s.shape.channels, Min(h, s.shape.height), Min(w, s.shape.width)), s.pixel)
  }

  /** `y[:, :2 * (H // 2), :2 * (W // 2)]`: drops the last row and column when
      they make a spatial dimension odd, keeping everything else. */
  function EvenTruncate(y: Signal): (r: Signal)
    ensures r.shape.channels == y.shape.channels
    ensures r.shape.height % 2 == 0 && r.shape.height <= y.shape.height < r.shape.height + 2
    ensures r.shape.width % 2 == 0 && r.shape.width <= y.shape.width < r.shape.width + 2
    ensures forall c: nat, i: nat, j: nat | c < r.shape.channels && i < r.shape.height && j < r.shape.width
              :: r.pixel(c, i, j) == y.pixel(c, i, j)
  {
    Slice(y, 2 * (y.shape.height / 2), 2 * (y.shape.width / 2))
  }

  /** torchvision's `crop(x, top=0, left=0, height, width)`: a top-left window of
      exactly the requested size; positions beyond the border of `x` are zero padding. */
  function CropTopLeft(x: Signal, height: nat, width: nat): (r: Signal)
    ensures r.shape == Shape(x.shape.channels, height, width)
    ensures forall c: nat, i: nat, j: nat | i < height && j < width
              :: r.pixel(c, i, j) == if i < x.shape.height && j < x.shape.width then x.pixel(c, i, j) else 0.0
  {
    Signal(Shape(x.shape.channels, height, width),
           (c: nat, i: nat, j: nat) => if i < x.shape.height && j < x.shape.width then x.pixel(c, i, j) else 0.0)
  }

  /** A blur kernel: its spatial size (`kernel.shape[-2:]`, all that the margin
      derivation reads) and its opaque weights, which the noise2inverse split receives. */
  datatype Kernel = Kernel(height: nat, width: nat, weights: (nat, nat) -> real)

  /** The physics object and its degradation manager. Attributes that the source
      reads through `hasattr`/`getattr` or that only some physics carry are options.
      The three operators are foreign code: the simulator with a seed, the simulator
      with fresh randomness (whose outcome is the random `draw`), and `A_dagger`. */
  datatype Physics = Physics(
    task: string,
    ratio: Option<nat>,
    rate: Option<nat>,
    filter: Option<Kernel>,
    degradeSeeded: (Signal, int) -> Signal,
    degradeUnseeded: (Signal, nat) -> Signal,
    pseudoInverse: Signal -> Signal)

  /** `physics_manager.randomly_degrade(x, seed=seed)`; `draw` stands for the
      state of the random source and is consulted only when `seed` is None. */
  function RandomlyDegrade(p: Physics, x: Signal, seed: Option<int>, draw: nat): Signal
  {
    match seed
    case Some(s) => p.degradeSeeded(x, s)
    case None => p.degradeUnseeded(x, draw)
  }

  /** `CropPair(location, size)(x, y, xy_size_ratio)` with the random position
      determined by `draw`: (location, size, ratio, x, y, draw) -> (x', y'). */
  type CropPair = (string, nat, nat, Signal, Signal, nat) -> (Signal, Signal)
}
