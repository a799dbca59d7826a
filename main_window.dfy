/**
  The main window of the block-matching tuner: it holds the estimator's ten
  parameters, the two loaded grayscale images (only their dimensions), the
  maximum of the block-size slider and the depth-map display, and it decides
  when a disparity computation may run.

  The estimator itself is opaque: a computation is recorded as the call it
  would make (both images and the parameters) and displayed as such.
*/
module Window {
  import opened Rounding
  import opened Parameters

  /** A grayscale image as the window keeps it: its dimensions only. */
  datatype Mat = Mat(rows: nat, cols: nat) {
    /** An image with no pixels, such as one never loaded. */
    predicate Empty() {
      rows == 0 || cols == 0
    }

    /** The smaller side, `std::min(cols, rows)`. */
    function MinSide(): nat {
      if rows < cols then rows else cols
    }
  }

  /** The state of an image slot before anything has been loaded into it. */
  const NoImage: Mat := Mat(0, 0)

  predicate SameSize(a: Mat, b: Mat) {
    a.rows == b.rows && a.cols == b.cols
  }

  function Min(a: int, b: int): int {
    if b < a then b else a
  }

  function Max(a: int, b: int): int {
    if a < b then b else a
  }

  /** Largest block size the slider allows at all. */
  const SadLimit: int := 255
  /** Smallest maximum the block-size slider is ever given. */
  const SadFloor: int := 5

  /**
    The block-size slider maximum for the given images: 255 when no image
    is loaded, otherwise no larger than the smaller side of any loaded image,
    but never below 5.
  */
  function SadWindowBound(left: Mat, right: Mat): (r: int)
    ensures SadFloor <= r <= SadLimit
    ensures left.Empty() && right.Empty() ==> r == SadLimit
    ensures !left.Empty() ==> r <= Max(SadFloor, left.MinSide())
    ensures !right.Empty() ==> r <= Max(SadFloor, right.MinSide())
    ensures !left.Empty() && left.MinSide() >= SadFloor ==> r <= left.MinSide()
    ensures !right.Empty() && right.MinSide() >= SadFloor ==> r <= right.MinSide()
    ensures r == SadLimit
            || (!left.Empty() && r == Max(SadFloor, left.MinSide()))
            || (!right.Empty() && r == Max(SadFloor, right.MinSide()))
  {
    if (!left.Empty() && left.MinSide() < SadFloor) || (!right.Empty() && right.MinSide() < SadFloor) then
      SadFloor
    else
      var l := if left.Empty() then SadLimit else Min(SadLimit, left.MinSide());
      if right.Empty() then l else Min(l, right.MinSide())
  }

  /** What a request for a depth map came to. */
  datatype Attempt =
    | Skipped       // an image is missing: nothing is done
    | SizeMismatch  // the images differ in size: a message is displayed
    | Computed      // the estimator ran and its result is displayed

  /** The gate of the depth-map computation. */
  function Gate(left: Mat, right: Mat): (r: Attempt)
    ensures r == Skipped <==> left.Empty() || right.Empty()
    ensures r == SizeMismatch <==> !left.Empty() && !right.Empty() && !SameSize(left, right)
    ensures r == Computed <==> !left.Empty() && !right.Empty() && SameSize(left, right)
  {
    if left.Empty() || right.Empty() then Skipped
    else if left.rows != right.rows || left.cols != right.cols then SizeMismatch
    else Computed
  }

  /** One run of the opaque estimator: the two images and the parameters it was given. */
  datatype EstimatorCall = EstimatorCall(left: Mat, right: Mat, params: BMParams)

  /**
    A call that passed the gate: two non-empty images of one size, with the
    parameters in the shapes the callbacks force (odd sizes, a multiple of 16
    disparities). The ranges the constructor's comments give are not checked:
    no callback enforces them.
  */
  predicate GatedCall(c: EstimatorCall) {
    !c.left.Empty() && !c.right.Empty() && SameSize(c.left, c.right) && Constrained(c.params)
  }

  predicate AllGated(log: seq<EstimatorCall>) {
    forall i :: 0 <= i < |log| ==> GatedCall(log[i])
  }

  /** The depth-map label: blank, a text message, or the colour-mapped result of one estimator call. */
  datatype DepthMapView = Blank | Message(text: string) | DisparityShown(call: EstimatorCall)

  const SizeMismatchText: string := "Can't compute depth map: left and right images should be the same size"

  /** What a depth-map request acts on: the label and the calls made to the estimator so far. */
  datatype DepthState = DepthState(view: DepthMapView, log: seq<EstimatorCall>)

  /**
    One depth-map request on the given images and parameters: nothing when an
    image is missing, the mismatch message when the sizes differ, otherwise
    one more estimator call, displayed.
  */
  function Refresh(s: DepthState, left: Mat, right: Mat, p: BMParams): (r: DepthState)
    ensures Gate(left, right) == Skipped ==> r == s
    ensures Gate(left, right) == SizeMismatch ==> r == DepthState(Message(SizeMismatchText), s.log)
    ensures Gate(left, right) == Computed ==>
      && r.log == s.log + [EstimatorCall(left, right, p)]
      && r.view == DisparityShown(EstimatorCall(left, right, p))
    ensures AllGated(s.log) && Constrained(p) ==> AllGated(r.log)
  {
    match Gate(left, right)
    case Skipped => s
    case SizeMismatch => DepthState(Message(SizeMismatchText), s.log)
    case Computed =>
      var call := EstimatorCall(left, right, p);
      DepthState(DisparityShown(call), s.log + [call])
  }

  /**
    Lowering the block-size slider maximum below the slider's position makes
    Qt move the slider to the new maximum and fire its callback with that
    value, which stores the odd rounding of it. The slider's position is the
    stored block size, since every block-size callback writes its stored value
    back to the slider.
  */
  function ClampBlockSize(p: BMParams, bound: int): (r: BMParams)
    ensures p.blockSize <= bound ==> r == p
    ensures p.blockSize > bound ==> IsOdd(r.blockSize) && r.blockSize <= bound < r.blockSize + 2
    ensures forall j :: j != BlockSize ==> Get(r, j) == Get(p, j)
    ensures Constrained(p) ==> Constrained(r)
  {
    if p.blockSize > bound then Slide(p, BlockSize, bound) else p
  }

  /** The depth-map state after the callback a clamp fires, which requests a depth map on the images of that moment. */
  function AfterClamp(s: DepthState, left: Mat, right: Mat, p: BMParams, bound: int): DepthState {
    if p.blockSize > bound then Refresh(s, left, right, ClampBlockSize(p, bound)) else s
  }

  /** Outcome of the file dialog: cancelled, or a picture whose grayscale version has these dimensions. */
  datatype FileChoice = Cancelled | Picked(image: Mat)

  class MainWindow {
    var preFilterSize: int
    var preFilterCap: int
    var blockSize: int
    var minDisparity: int
    var numDisparities: int
    var textureThreshold: int
    var uniquenessRatio: int
    var speckleWindowSize: int
    var speckleRange: int
    var disp12MaxDiff: int

    var leftImage: Mat
    var rightImage: Mat
    /** Maximum of the block-size slider. */
    var sadSliderMax: int
    var depthMap: DepthMapView
    /** Every call made to the estimator so far, oldest first. */
    ghost var estimatorLog: seq<EstimatorCall>

    /** The parameter fields of the estimator, as a value. */
    function Params(): BMParams
      reads this
    {
      BMParams(preFilterSize, preFilterCap, blockSize, minDisparity, numDisparities,
               textureThreshold, uniquenessRatio, speckleWindowSize, speckleRange, disp12MaxDiff)
    }

    /**
      The parameters have their forced shapes, and every call made to the
      estimator passed the gate: two non-empty images of one size.
    */
    ghost predicate Valid()
      reads this
    {
      Constrained(Params()) && AllGated(estimatorLog)
    }

    ghost function State(): DepthState
      reads this
    {
      DepthState(depthMap, estimatorLog)
    }

    /** The window as constructed; `designerSadMax` is the block-size slider maximum set in the UI form. */
    constructor (designerSadMax: int)
      ensures Valid()
      ensures Params() == Defaults
      ensures leftImage == NoImage && rightImage == NoImage
      ensures sadSliderMax == designerSadMax
      ensures depthMap == Blank && estimatorLog == []
    {
      preFilterSize := 41;
      preFilterCap := 31;
      blockSize := 41;
      minDisparity := -64;
      numDisparities := 128;
      textureThreshold := 10;
      uniquenessRatio := 15;
      speckleWindowSize := 0;
      speckleRange := 0;
      disp12MaxDiff := -1;
      leftImage, rightImage := NoImage, NoImage;
      sadSliderMax := designerSadMax;
      depthMap := Blank;
      estimatorLog := [];
      new;
      DefaultsConstrained();
    }

    /** Compute and display the depth map, if both images are loaded and of one size. */
    method ComputeDepthMap() returns (outcome: Attempt)
      requires Valid()
      modifies this`depthMap, this`estimatorLog
      ensures Valid()
      ensures outcome == Gate(leftImage, rightImage)
      ensures State() == Refresh(old(State()), leftImage, rightImage, Params())
    {
      if leftImage.Empty() || rightImage.Empty() {
        return Skipped;
      }
      if leftImage.rows != rightImage.rows || leftImage.cols != rightImage.cols {
        depthMap := Message(SizeMismatchText);
        return SizeMismatch;
      }
      var call := EstimatorCall(leftImage, rightImage, Params());
      depthMap := DisparityShown(call);
      estimatorLog := estimatorLog + [call];
      return Computed;
    }

    /**
      Bound the block-size slider by the smaller side of each loaded image,
      within 5..255. A block size above the new maximum is clamped by the
      slider, whose callback stores it and requests a depth map.
    */
    method SetSadWindowSize()
      requires Valid()
      modifies this`sadSliderMax, this`blockSize, this`depthMap, this`estimatorLog
      ensures Valid()
      ensures sadSliderMax == SadWindowBound(leftImage, rightImage)
      ensures Params() == ClampBlockSize(old(Params()), sadSliderMax)
      ensures blockSize <= sadSliderMax
      ensures State() == AfterClamp(old(State()), leftImage, rightImage, old(Params()), sadSliderMax)
    {
      var value := SadLimit;
      if !leftImage.Empty() {
        value := Min(value, Min(leftImage.cols, leftImage.rows));
      }
      if !rightImage.Empty() {
        value := Min(value, Min(rightImage.cols, rightImage.rows));
      }
      value := Max(value, SadFloor);
      sadSliderMax := value;
      if blockSize > value {
        var _ := SadWindowSizeValueChanged(value);
      }
    }

    /**
      Load the left picture. The slider maximum is recomputed BEFORE the new
      image is stored, so it reflects the images loaded until now, and so does
      a depth-map request fired by a clamp of the block size.
    */
    method LeftButtonClicked(choice: FileChoice) returns (outcome: Attempt)
      requires Valid()
      modifies this`leftImage, this`sadSliderMax, this`blockSize, this`depthMap, this`estimatorLog
      ensures Valid()
      ensures choice == Cancelled ==> outcome == Skipped && unchanged(this)
      ensures choice.Picked? ==>
        && sadSliderMax == SadWindowBound(old(leftImage), old(rightImage))
        && leftImage == choice.image
        && Params() == ClampBlockSize(old(Params()), sadSliderMax)
        && blockSize <= sadSliderMax
        && outcome == Gate(leftImage, rightImage)
        && State() == Refresh(AfterClamp(old(State()), old(leftImage), old(rightImage), old(Params()), sadSliderMax),
                              leftImage, rightImage, Params())
    {
      if choice == Cancelled {
        return Skipped;
      }
      SetSadWindowSize();
      leftImage := choice.image;
      outcome := ComputeDepthMap();
    }

    /** Load the right picture; as for the left one, the slider maximum comes from the images loaded until now. */
    method RightButtonClicked(choice: FileChoice) returns (outcome: Attempt)
      requires Valid()
      modifies this`rightImage, this`sadSliderMax, this`blockSize, this`depthMap, this`estimatorLog
      ensures Valid()
      ensures choice == Cancelled ==> outcome == Skipped && unchanged(this)
      ensures choice.Picked? ==>
        && sadSliderMax == SadWindowBound(old(leftImage), old(rightImage))
        && rightImage == choice.image
        && Params() == ClampBlockSize(old(Params()), sadSliderMax)
        && blockSize <= sadSliderMax
        && outcome == Gate(leftImage, rightImage)
        && State() == Refresh(AfterClamp(old(State()), old(leftImage), old(rightImage), old(Params()), sadSliderMax),
                              leftImage, rightImage, Params())
    {
      if choice == Cancelled {
        return Skipped;
      }
      SetSadWindowSize();
      rightImage := choice.image;
      outcome := ComputeDepthMap();
    }

    /** Pre-filter size slider: stored odd, an even value decremented. */
    method PreFilterSizeValueChanged(value: int) returns (outcome: Attempt)
      requires Valid()
      modifies this`preFilterSize, this`depthMap, this`estimatorLog
      ensures Valid()
      ensures Params() == Slide(old(Params()), PreFilterSize, value)
      ensures outcome == Gate(leftImage, rightImage)
      ensures State() == Refresh(old(State()), leftImage, rightImage, Params())
    {
      ghost var before := Params();
      var v := value;
      if CppRem(v, 2) == 0 {
        v := v - 1;
      }
      preFilterSize := v;
      assert Params() == Slide(before, PreFilterSize, value);
      outcome := ComputeDepthMap();
    }

    method PreFilterCapValueChanged(value: int) returns (outcome: Attempt)
      requires Valid()
      modifies this`preFilterCap, this`depthMap, this`estimatorLog
      ensures Valid()
      ensures Params() == Slide(old(Params()), PreFilterCap, value)
      ensures outcome == Gate(leftImage, rightImage)
      ensures State() == Refresh(old(State()), leftImage, rightImage, Params())
    {
      ghost var before := Params();
      preFilterCap := value;
      assert Params() == Slide(before, PreFilterCap, value);
      outcome := ComputeDepthMap();
    }

    /** Block-size (SAD window) slider: stored odd, an even value decremented. */
    method SadWindowSizeValueChanged(value: int) returns (outcome: Attempt)
      requires Valid()
      modifies this`blockSize, this`depthMap, this`estimatorLog
      ensures Valid()
      ensures Params() == Slide(old(Params()), BlockSize, value)
      ensures outcome == Gate(leftImage, rightImage)
      ensures State() == Refresh(old(State()), leftImage, rightImage, Params())
    {
      ghost var before := Params();
      var v := value;
      if CppRem(v, 2) == 0 {
        v := v - 1;
      }
      blockSize := v;
      assert Params() == Slide(before, BlockSize, value);
      outcome := ComputeDepthMap();
    }

    method MinDisparityValueChanged(value: int) returns (outcome: Attempt)
      requires Valid()
      modifies this`minDisparity, this`depthMap, this`estimatorLog
      ensures Valid()
      ensures Params() == Slide(old(Params()), MinDisparity, value)
      ensures outcome == Gate(leftImage, rightImage)
      ensures State() == Refresh(old(State()), leftImage, rightImage, Params())
    {
      ghost var before := Params();
      minDisparity := value;
      assert Params() == Slide(before, MinDisparity, value);
      outcome := ComputeDepthMap();
    }

    /** Store the number of disparities rounded toward zero to a multiple of 16. */
    method SetNumOfDisparitySliderToMultiple16(value: int) returns (outcome: Attempt)
      requires Valid()
      modifies this`numDisparities, this`depthMap, this`estimatorLog
      ensures Valid()
      ensures Params() == Slide(old(Params()), NumDisparities, value)
      ensures outcome == Gate(leftImage, rightImage)
      ensures State() == Refresh(old(State()), leftImage, rightImage, Params())
    {
      ghost var before := Params();
      var v := value;
      if CppRem(v, 16) != 0 {
        v := v - CppRem(v, 16);
      }
      numDisparities := v;
      assert Params() == Slide(before, NumDisparities, value);
      outcome := ComputeDepthMap();
    }

    /** The number-of-disparities slider was dragged. */
    method NumOfDisparitySliderMoved(value: int) returns (outcome: Attempt)
      requires Valid()
      modifies this`numDisparities, this`depthMap, this`estimatorLog
      ensures Valid()
      ensures Params() == Slide(old(Params()), NumDisparities, value)
      ensures outcome == Gate(leftImage, rightImage)
      ensures State() == Refresh(old(State()), leftImage, rightImage, Params())
    {
      outcome := SetNumOfDisparitySliderToMultiple16(value);
    }

    /** The number-of-disparities slider changed value (also by a click, without a drag). */
    method NumOfDisparityValueChanged(value: int) returns (outcome: Attempt)
      requires Valid()
      modifies this`numDisparities, this`depthMap, this`estimatorLog
      ensures Valid()
      ensures Params() == Slide(old(Params()), NumDisparities, value)
      ensures outcome == Gate(leftImage, rightImage)
      ensures State() == Refresh(old(State()), leftImage, rightImage, Params())
    {
      outcome := SetNumOfDisparitySliderToMultiple16(value);
    }

    method TextureThresholdValueChanged(value: int) returns (outcome: Attempt)
      requires Valid()
      modifies this`textureThreshold, this`depthMap, this`estimatorLog
      ensures Valid()
      ensures Params() == Slide(old(Params()), TextureThreshold, value)
      ensures outcome == Gate(leftImage, rightImage)
      ensures State() == Refresh(old(State()), leftImage, rightImage, Params())
    {
      ghost var before := Params();
      textureThreshold := value;
      assert Params() == Slide(before, TextureThreshold, value);
      outcome := ComputeDepthMap();
    }

    method UniquenessRatioValueChanged(value: int) returns (outcome: Attempt)
      requires Valid()
      modifies this`uniquenessRatio, this`depthMap, this`estimatorLog
      ensures Valid()
      ensures Params() == Slide(old(Params()), UniquenessRatio, value)
      ensures outcome == Gate(leftImage, rightImage)
      ensures State() == Refresh(old(State()), leftImage, rightImage, Params())
    {
      ghost var before := Params();
      uniquenessRatio := value;
      assert Params() == Slide(before, UniquenessRatio, value);
      outcome := ComputeDepthMap();
    }

    method SpeckleWindowSizeValueChanged(value: int) returns (outcome: Attempt)
      requires Valid()
      modifies this`speckleWindowSize, this`depthMap, this`estimatorLog
      ensures Valid()
      ensures Params() == Slide(old(Params()), SpeckleWindowSize, value)
      ensures outcome == Gate(leftImage, rightImage)
      ensures State() == Refresh(old(State()), leftImage, rightImage, Params())
    {
      ghost var before := Params();
      speckleWindowSize := value;
      assert Params() == Slide(before, SpeckleWindowSize, value);
      outcome := ComputeDepthMap();
    }

    method SpeckleRangeValueChanged(value: int) returns (outcome: Attempt)
      requires Valid()
      modifies this`speckleRange, this`depthMap, this`estimatorLog
      ensures Valid()
      ensures Params() == Slide(old(Params()), SpeckleRange, value)
      ensures outcome == Gate(leftImage, rightImage)
      ensures State() == Refresh(old(State()), leftImage, rightImage, Params())
    {
      ghost var before := Params();
      speckleRange := value;
      assert Params() == Slide(before, SpeckleRange, value);
      outcome := ComputeDepthMap();
    }

    method Disp12MaxDiffValueChanged(value: int) returns (outcome: Attempt)
      requires Valid()
      modifies this`disp12MaxDiff, this`depthMap, this`estimatorLog
      ensures Valid()
      ensures Params() == Slide(old(Params()), Disp12MaxDiff, value)
      ensures outcome == Gate(leftImage, rightImage)
      ensures State() == Refresh(old(State()), leftImage, rightImage, Params())
    {
      ghost var before := Params();
      disp12MaxDiff := value;
      assert Params() == Slide(before, Disp12MaxDiff, value);
      outcome := ComputeDepthMap();
    }
  }

  /**
    Loading two 100x120 pictures into a fresh window: the first load leaves
    the block-size maximum at 255 although the new image is only 100 rows
    high, because the maximum is taken from the images loaded before it; the
    second load takes it from the first image; the depth map is then computed.
  */
  method StaleSadMaximumScenario() returns (afterLeft: int, afterRight: int, outcome: Attempt)
    ensures afterLeft == 255 && afterRight == 100 && outcome == Computed
  {
    var w := new MainWindow(255);
    var first := w.LeftButtonClicked(Picked(Mat(100, 120)));
    afterLeft := w.sadSliderMax;
    outcome := w.RightButtonClicked(Picked(Mat(100, 120)));
    afterRight := w.sadSliderMax;
  }

  /**
    Loading a 64x64 and a 32x32 picture: the depth map shows the size-mismatch
    message and the estimator is never called; moving the number-of-disparities
    slider to 17 then stores 16 and still computes nothing.
  */
  method MismatchedImagesScenario() returns (view: DepthMapView, numDisparities: int, outcome: Attempt)
    ensures view == Message(SizeMismatchText)
    ensures numDisparities == 16
    ensures outcome == SizeMismatch
  {
    var w := new MainWindow(255);
    var first := w.LeftButtonClicked(Picked(Mat(64, 64)));
    var second := w.RightButtonClicked(Picked(Mat(32, 32)));
    assert second == SizeMismatch;
    outcome := w.NumOfDisparityValueChanged(17);
    view := w.depthMap;
    numDisparities := w.numDisparities;
    assert w.estimatorLog == [];
  }

  /**
    Loading two 32x32 pictures: the second load lowers the block-size maximum
    to 32, below the stored 41, so the slider is clamped and its callback
    stores 31 (its depth-map request finds the right image still missing);
    the estimator then runs once, with block size 31.
  */
  method BlockSizeClampScenario() returns (sadMax: int, blockSize: int, outcome: Attempt)
    ensures sadMax == 32 && blockSize == 31 && outcome == Computed
  {
    var w := new MainWindow(255);
    var first := w.LeftButtonClicked(Picked(Mat(32, 32)));
    outcome := w.RightButtonClicked(Picked(Mat(32, 32)));
    sadMax := w.sadSliderMax;
    blockSize := w.blockSize;
    assert |w.estimatorLog| == 1 && w.estimatorLog[0].params.blockSize == 31;
  }
}
