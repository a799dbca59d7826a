/**
  The ten parameters of the block-matching stereo estimator, as the tuner
  window holds them, and the effect of moving one slider on them.

  A slider callback stores its value into one parameter after forcing it
  into the shape the estimator accepts: odd for the pre-filter size and the
  block size, a multiple of 16 for the number of disparities, unchanged for
  the other seven.
*/
module Parameters {
  import opened Rounding

  /** Names of the ten parameters, one per slider. */
  datatype Param =
    | PreFilterSize | PreFilterCap | BlockSize | MinDisparity | NumDisparities
    | TextureThreshold | UniquenessRatio | SpeckleWindowSize | SpeckleRange | Disp12MaxDiff

  /** The parameter fields of the estimator object, as a value. */
  datatype BMParams = BMParams(
    preFilterSize: int,
    preFilterCap: int,
    blockSize: int,
    minDisparity: int,
    numDisparities: int,
    textureThreshold: int,
    uniquenessRatio: int,
    speckleWindowSize: int,
    speckleRange: int,
    disp12MaxDiff: int)

  /** The values the window constructor writes into the estimator. */
  const Defaults: BMParams := BMParams(41, 31, 41, -64, 128, 10, 15, 0, 0, -1)

  function Get(p: BMParams, k: Param): int {
    match k
    case PreFilterSize => p.preFilterSize
    case PreFilterCap => p.preFilterCap
    case BlockSize => p.blockSize
    case MinDisparity => p.minDisparity
    case NumDisparities => p.numDisparities
    case TextureThreshold => p.textureThreshold
    case UniquenessRatio => p.uniquenessRatio
    case SpeckleWindowSize => p.speckleWindowSize
    case SpeckleRange => p.speckleRange
    case Disp12MaxDiff => p.disp12MaxDiff
  }

  /** One setter of the estimator: writes parameter `k` and no other. */
  function Set(p: BMParams, k: Param, v: int): (r: BMParams)
    ensures Get(r, k) == v
    ensures forall j :: j != k ==> Get(r, j) == Get(p, j)
  {
    match k
    case PreFilterSize => p.(preFilterSize := v)
    case PreFilterCap => p.(preFilterCap := v)
    case BlockSize => p.(blockSize := v)
    case MinDisparity => p.(minDisparity := v)
    case NumDisparities => p.(numDisparities := v)
    case TextureThreshold => p.(textureThreshold := v)
    case UniquenessRatio => p.(uniquenessRatio := v)
    case SpeckleWindowSize => p.(speckleWindowSize := v)
    case SpeckleRange => p.(speckleRange := v)
    case Disp12MaxDiff => p.(disp12MaxDiff := v)
  }

  /** The shape a callback forces on the value of `k` before storing it. */
  predicate Admissible(k: Param, v: int) {
    match k
    case PreFilterSize | BlockSize => IsOdd(v)
    case NumDisparities => v % 16 == 0
    case _ => true
  }

  /** Every parameter has the shape its callback forces. */
  predicate Constrained(p: BMParams) {
    forall k :: Admissible(k, Get(p, k))
  }

  /** Plain parameters: their callback stores the slider value as it comes. */
  predicate IsPlain(k: Param) {
    !(k == PreFilterSize || k == BlockSize || k == NumDisparities)
  }

  /** The value the callback for `k` stores when its slider reports `v`. */
  function Constrain(k: Param, v: int): (r: int)
    ensures Admissible(k, r)
    ensures Admissible(k, v) ==> r == v
    ensures IsPlain(k) ==> r == v
  {
    match k
    case PreFilterSize | BlockSize => RoundToOdd(v)
    case NumDisparities => TruncateToMultipleOf16(v)
    case _ => v
  }

  /** The parameters after the callback of slider `k` has run with value `v`. */
  function Slide(p: BMParams, k: Param, v: int): (r: BMParams)
    ensures Admissible(k, Get(r, k))
    ensures Admissible(k, v) ==> Get(r, k) == v
    ensures forall j :: j != k ==> Get(r, j) == Get(p, j)
    ensures Constrained(p) ==> Constrained(r)
  {
    Set(p, k, Constrain(k, v))
  }

  /** One slider callback: which slider, and the value it reported. */
  datatype SliderEvent = SliderEvent(param: Param, value: int)

  /** The parameters after a run of slider callbacks, in order. */
  function Replay(p: BMParams, events: seq<SliderEvent>): BMParams
    decreases |events|
  {
    if events == [] then p
    else Replay(Slide(p, events[0].param, events[0].value), events[1..])
  }

  /** Two parameter sets that agree on every parameter are the same. */
  lemma Extensional(p: BMParams, q: BMParams)
    requires forall k :: Get(p, k) == Get(q, k)
    ensures p == q
  {
    assert Get(p, PreFilterSize) == Get(q, PreFilterSize);
    assert Get(p, PreFilterCap) == Get(q, PreFilterCap);
    assert Get(p, BlockSize) == Get(q, BlockSize);
    assert Get(p, MinDisparity) == Get(q, MinDisparity);
    assert Get(p, NumDisparities) == Get(q, NumDisparities);
    assert Get(p, TextureThreshold) == Get(q, TextureThreshold);
    assert Get(p, UniquenessRatio) == Get(q, UniquenessRatio);
    assert Get(p, SpeckleWindowSize) == Get(q, SpeckleWindowSize);
    assert Get(p, SpeckleRange) == Get(q, SpeckleRange);
    assert Get(p, Disp12MaxDiff) == Get(q, Disp12MaxDiff);
  }

  /** A setter is fully described by its frame: a set storing `v` at `k` and keeping the rest is `Set(p, k, v)`. */
  lemma SetDeterminedByFrame(p: BMParams, k: Param, v: int, r: BMParams)
    requires Get(r, k) == v
    requires forall j :: j != k ==> Get(r, j) == Get(p, j)
    ensures r == Set(p, k, v)
  {
    Extensional(r, Set(p, k, v));
  }

  /** A plain callback stores its input unchanged and touches no other parameter. */
  lemma PlainSlideStoresInput(p: BMParams, k: Param, v: int)
    requires IsPlain(k)
    ensures Get(Slide(p, k, v), k) == v
    ensures forall j :: j != k ==> Get(Slide(p, k, v), j) == Get(p, j)
  {
  }

  /** Callbacks of two different sliders have the same effect in either order. */
  lemma SlidesOfDistinctParamsCommute(p: BMParams, k: Param, v: int, j: Param, w: int)
    requires k != j
    ensures Slide(Slide(p, k, v), j, w) == Slide(Slide(p, j, w), k, v)
  {
  }

  /** A later callback of the same slider overrides an earlier one. */
  lemma LaterSlideOfSameParamWins(p: BMParams, k: Param, v: int, w: int)
    ensures Slide(Slide(p, k, v), k, w) == Slide(p, k, w)
  {
  }

  /**
    When a callback rounds its value it writes the rounded value back to its
    slider, which fires the callback again with that value: the second run
    stores what the first one stored.
  */
  lemma RefiredRoundedValueChangesNothing(p: BMParams, k: Param, v: int)
    ensures Slide(Slide(p, k, v), k, Constrain(k, v)) == Slide(p, k, v)
  {
  }

  /** Whatever run of callbacks fires, the parameters keep the shapes the callbacks force. */
  lemma {:induction false} ReplayKeepsConstraints(p: BMParams, events: seq<SliderEvent>)
    requires Constrained(p)
    ensures Constrained(Replay(p, events))
    decreases |events|
  {
    if events != [] {
      ReplayKeepsConstraints(Slide(p, events[0].param, events[0].value), events[1..]);
    }
  }

  /**
    The constructor's values meet the ranges its own comments give:
    pre-filter size odd in 5..255, cap in 1..63, block size odd in 5..255,
    number of disparities positive and divisible by 16, texture threshold and
    uniqueness ratio non-negative.
  */
  lemma DefaultsInDocumentedRanges()
    ensures IsOdd(Defaults.preFilterSize) && 5 <= Defaults.preFilterSize <= 255
    ensures 1 <= Defaults.preFilterCap <= 63
    ensures IsOdd(Defaults.blockSize) && 5 <= Defaults.blockSize <= 255
    ensures Defaults.numDisparities > 0 && Defaults.numDisparities % 16 == 0
    ensures Defaults.textureThreshold >= 0 && Defaults.uniquenessRatio >= 0
  {
  }

  /** The constructor's values already have the shapes the callbacks force. */
  lemma DefaultsConstrained()
    ensures Constrained(Defaults)
  {
  }

  /** Every parameter set reachable from the constructor's by slider callbacks is constrained. */
  lemma ReachableParamsConstrained(events: seq<SliderEvent>)
    ensures Constrained(Replay(Defaults, events))
  {
    DefaultsConstrained();
    ReplayKeepsConstraints(Defaults, events);
  }
}
