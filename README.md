# Block-matching tuner: parameter constraints and recompute gating

The tuner is a Qt desktop tool. A user loads a left and a right picture,
moves ten sliders for the parameters of OpenCV's block-matching stereo
estimator (`cv::StereoBM`), and gets back a colour-mapped disparity map.
This project models the logic of `MainWindow` that lies around the
estimator:

- the ten estimator parameters and the constructor's defaults;
- the slider callbacks. They store the pre-filter size and the block (SAD
  window) size as odd numbers, decrementing an even value. They store the
  number of disparities as `value - value % 16`, with C++'s truncating `%`.
  The other seven values are stored as they come;
- `set_SADWindowSize`, which sets the block-size slider maximum from the
  loaded images;
- the gate in `compute_depth_map`. It does nothing when an image is missing.
  It shows a message when the sizes differ. Otherwise it runs the estimator;
- the two image-load buttons, reduced to the dimensions of the decoded
  grayscale image.

Modules:

- `Rounding` holds the C++ remainder (`CppRem`, `CppDiv`) and the two
  rounding functions.
- `Parameters` holds the parameter set as a value (`BMParams`) and what one
  slider callback does to it (`Slide`). It also holds the lemmas about runs
  of callbacks.
- `Window` holds the image dimensions (`Mat`), the slider-maximum function,
  the gate, and the class `MainWindow`. The class has the source's fields
  and one method per callback.

The estimator's output is opaque. A computation is recorded as the call it
makes: both images and the parameters. A ghost log keeps every such call.
`MainWindow.Valid()` states two things:

- every parameter has its forced shape (odd sizes, a multiple of 16 disparities);
- every logged call passed the gate: two non-empty images of one size.

The callbacks enforce none of the ranges in the constructor's comments, and
neither does the model. A number of disparities of 0, say, reaches the
estimator both in the source and in the model.

The source callbacks return `void`. In the model each callback also returns
what its depth-map request came to (`Skipped`, `SizeMismatch`, `Computed`).
A skipped request therefore changes no state. `cv::Mat::empty()` is modelled
as "no rows or no columns".

Load-order quirk: both load buttons call `set_SADWindowSize()` before the
new image is stored (`mainwindow.cpp:114` vs `:124`, `:151` vs `:161`). The
model keeps this. The slider maximum therefore comes from the images loaded
before the click. `StaleSadMaximumScenario` shows the effect.

Block-size clamp: when `setMaximum` lowers the maximum below the slider's
position, Qt moves the slider to the maximum and fires its `valueChanged`
callback (mainwindow.cpp:253-261). The callback stores the odd rounding of
the new maximum and requests a depth map, on the images of that moment. The
model does this in `SetSadWindowSize` (`ClampBlockSize`, `AfterClamp`). It
takes the slider's position to be the stored block size: every block-size
callback writes its stored value back to the slider. `BlockSizeClampScenario`
shows two 32x32 pictures ending with block size 31.

## Model

| member | source | states |
|---|---|---|
| `Rounding.CppRem` | StereoCorrespondenceBMTuner/mainwindow.cpp:289-296 | C++ `%` for a positive divisor: `a == b * (a/b) + r` with truncating `/`, and `r` has the sign of `a` and is smaller than `b` in magnitude |
| `Rounding.CppDivRemUnique` | StereoCorrespondenceBMTuner/mainwindow.cpp:289-296 | any quotient and remainder meeting the C++ division rule are `CppDiv` and `CppRem`, so the remainder used is the truncating one |
| `Rounding.RoundToOdd` | StereoCorrespondenceBMTuner/mainwindow.cpp:214-222 | the result is odd; it is the greatest odd number not above the input (input−1 for an even input, negative ones included); an odd input is kept |
| `Rounding.RoundToOddIdempotent` | StereoCorrespondenceBMTuner/mainwindow.cpp:253-261 | rounding twice gives what rounding once gives |
| `Rounding.RoundToOddInInt32` | StereoCorrespondenceBMTuner/mainwindow.cpp:214-222 | for a 32-bit input, the result fits 32 bits exactly when the input is not the most negative `int` |
| `Rounding.TruncateToMultipleOf16` | StereoCorrespondenceBMTuner/mainwindow.cpp:289-296 | the result is divisible by 16. It lies between 0 and the input, so it rounds toward zero, and it differs from the input by less than 16. A multiple of 16 is kept |
| `Rounding.TruncateToMultipleOf16Idempotent` | StereoCorrespondenceBMTuner/mainwindow.cpp:289-296 | rounding twice gives what rounding once gives |
| `Rounding.TruncateToMultipleOf16InInt32` | StereoCorrespondenceBMTuner/mainwindow.cpp:289-296 | a 32-bit input gives a 32-bit result |
| `Parameters.Set` | StereoCorrespondenceBMTuner/mainwindow.cpp:62-71 | an estimator setter writes its own parameter and leaves the other nine as they were |
| `Parameters.Constrain` | StereoCorrespondenceBMTuner/mainwindow.cpp:214-297 | the value a callback stores has its parameter's shape (odd, or a multiple of 16); a value that already has it is stored unchanged, as is every value of the seven plain parameters |
| `Parameters.Slide` | StereoCorrespondenceBMTuner/mainwindow.cpp:214-337 | one callback gives its parameter its shape, keeps an already shaped value, changes no other parameter, and keeps every parameter's shape |
| `Parameters.PlainSlideStoresInput` | StereoCorrespondenceBMTuner/mainwindow.cpp:301-337 | each plain callback (cap, min disparity, texture threshold, uniqueness ratio, speckle window, speckle range, disp12 max diff) stores its input unchanged and touches no other parameter |
| `Parameters.SetDeterminedByFrame` | StereoCorrespondenceBMTuner/mainwindow.cpp:62-71 | a parameter set that holds `v` at `k` and agrees with `p` elsewhere is `Set(p, k, v)`: a setter's effect is exactly its frame |
| `Parameters.SlidesOfDistinctParamsCommute` | StereoCorrespondenceBMTuner/mainwindow.cpp:209-337 | callbacks of two different sliders give the same parameters in either order |
| `Parameters.LaterSlideOfSameParamWins` | StereoCorrespondenceBMTuner/mainwindow.cpp:214-337 | a later callback of the same slider overrides the earlier one |
| `Parameters.RefiredRoundedValueChangesNothing` | StereoCorrespondenceBMTuner/mainwindow.cpp:214-297 | the callback re-fired by `setValue` of the rounded value (`Constrain(k, v)`) stores what the first run stored |
| `Parameters.ReplayKeepsConstraints` | StereoCorrespondenceBMTuner/mainwindow.cpp:209-337 | any run of callbacks, in any order, keeps every parameter's shape |
| `Parameters.DefaultsInDocumentedRanges` | StereoCorrespondenceBMTuner/mainwindow.cpp:62-71 | the defaults meet the constructor's comments: pre-filter size 41 odd in 5..255, cap 31 in 1..63, block size 41 odd in 5..255, 128 disparities positive and divisible by 16, texture threshold and uniqueness ratio non-negative |
| `Parameters.DefaultsConstrained` | StereoCorrespondenceBMTuner/mainwindow.cpp:62-71 | the defaults already have the shapes the callbacks force |
| `Parameters.ReachableParamsConstrained` | StereoCorrespondenceBMTuner/mainwindow.cpp:53-85 | every parameter set reachable from the defaults by slider callbacks has the forced shapes |
| `Window.SadWindowBound` | StereoCorrespondenceBMTuner/mainwindow.cpp:237-250 | the slider maximum is in [5, 255]. It is 255 with no image loaded. It is at most the smaller side of each loaded image whose smaller side is at least 5, and 5 if some loaded image is smaller. It is always 255 or one of those per-image bounds |
| `Window.Refresh` | StereoCorrespondenceBMTuner/mainwindow.cpp:167-180 | a depth-map request changes nothing when an image is missing, shows the message and adds no estimator call on a size mismatch, and adds exactly one call on the current images and parameters otherwise; the log stays made of gated calls |
| `Window.ClampBlockSize` | StereoCorrespondenceBMTuner/mainwindow.cpp:249-261 | a block size within the new maximum is kept; one above it becomes the greatest odd number not above the maximum; no other parameter changes and the forced shapes are kept |
| `Window.Gate` | StereoCorrespondenceBMTuner/mainwindow.cpp:167-180 | skipped iff an image is empty; size mismatch iff both are loaded and rows or columns differ; computed iff both are loaded and of equal size |
| `Window.MainWindow.constructor` | StereoCorrespondenceBMTuner/mainwindow.cpp:53-85 | the defaults are the initial parameters, no image is loaded, the depth map is blank, the estimator has not run, and the invariant holds |
| `Window.MainWindow.ComputeDepthMap` | StereoCorrespondenceBMTuner/mainwindow.cpp:167-206 | returns the gate's verdict and performs `Refresh`. Skipped: no state changes. Mismatch: shows the size message and does not call the estimator. Computed: calls the estimator once on the current images and parameters and shows the result. The estimator only ever gets non-empty images of one size |
| `Window.MainWindow.SetSadWindowSize` | StereoCorrespondenceBMTuner/mainwindow.cpp:237-250 | computes the slider maximum step by step as the source does; it equals `SadWindowBound` of the loaded images. A block size above it is clamped by the slider's callback, which requests a depth map on the current images; afterwards the block size is within the maximum |
| `Window.MainWindow.LeftButtonClicked` | StereoCorrespondenceBMTuner/mainwindow.cpp:94-127 | a cancelled dialog changes nothing. Otherwise the slider maximum comes from the images loaded BEFORE the click, and so does the depth-map request of a block-size clamp. Then the new left image is stored and the depth map is requested |
| `Window.MainWindow.RightButtonClicked` | StereoCorrespondenceBMTuner/mainwindow.cpp:131-164 | as for the left button, for the right image |
| `Window.MainWindow.PreFilterSizeValueChanged` | StereoCorrespondenceBMTuner/mainwindow.cpp:214-223 | the pre-filter size becomes the odd rounding of the input, nothing else among the parameters changes, and the depth map is requested |
| `Window.MainWindow.PreFilterCapValueChanged` | StereoCorrespondenceBMTuner/mainwindow.cpp:227-231 | stores the cap unchanged, no other parameter changes, depth map requested |
| `Window.MainWindow.SadWindowSizeValueChanged` | StereoCorrespondenceBMTuner/mainwindow.cpp:253-262 | the block size becomes the odd rounding of the input, nothing else among the parameters changes, depth map requested |
| `Window.MainWindow.MinDisparityValueChanged` | StereoCorrespondenceBMTuner/mainwindow.cpp:266-270 | stores the minimum disparity unchanged, no other parameter changes, depth map requested |
| `Window.MainWindow.SetNumOfDisparitySliderToMultiple16` | StereoCorrespondenceBMTuner/mainwindow.cpp:289-297 | the number of disparities becomes the input rounded toward zero to a multiple of 16, nothing else among the parameters changes, depth map requested |
| `Window.MainWindow.NumOfDisparitySliderMoved` | StereoCorrespondenceBMTuner/mainwindow.cpp:276-279 | same effect as the multiple-of-16 setter |
| `Window.MainWindow.NumOfDisparityValueChanged` | StereoCorrespondenceBMTuner/mainwindow.cpp:284-287 | same effect as the multiple-of-16 setter |
| `Window.MainWindow.TextureThresholdValueChanged` | StereoCorrespondenceBMTuner/mainwindow.cpp:301-305 | stores the texture threshold unchanged, no other parameter changes, depth map requested |
| `Window.MainWindow.UniquenessRatioValueChanged` | StereoCorrespondenceBMTuner/mainwindow.cpp:309-313 | stores the uniqueness ratio unchanged, no other parameter changes, depth map requested |
| `Window.MainWindow.SpeckleWindowSizeValueChanged` | StereoCorrespondenceBMTuner/mainwindow.cpp:317-321 | stores the speckle window size unchanged, no other parameter changes, depth map requested |
| `Window.MainWindow.SpeckleRangeValueChanged` | StereoCorrespondenceBMTuner/mainwindow.cpp:325-329 | stores the speckle range unchanged, no other parameter changes, depth map requested |
| `Window.MainWindow.Disp12MaxDiffValueChanged` | StereoCorrespondenceBMTuner/mainwindow.cpp:333-337 | stores the disp12 max difference unchanged, no other parameter changes, depth map requested |
| `Window.StaleSadMaximumScenario` | StereoCorrespondenceBMTuner/mainwindow.cpp:114-124 | after loading a 100x120 left picture into a fresh window, the slider maximum is still 255. Loading the right picture makes it 100, from the left image. The depth map is then computed |
| `Window.BlockSizeClampScenario` | StereoCorrespondenceBMTuner/mainwindow.cpp:151-161 | loading two 32x32 pictures lowers the maximum to 32, clamps the block size from 41 to 31, and the depth map is computed |
| `Window.MismatchedImagesScenario` | StereoCorrespondenceBMTuner/mainwindow.cpp:169-176 | with a 64x64 and a 32x32 picture, the size message is shown and the estimator never runs. The number-of-disparities slider at 17 stores 16 |

## Left out

- `Mat2QImage`, `QImage2Mat` (mainwindow.cpp:4-20): format conversions that wrap OpenCV and Qt calls.
- `cvJetColourMat` (mainwindow.cpp:22-50): a floating-point colour ramp that nothing calls.
- The estimator itself (`bmState->compute`), `cv::normalize` and `applyColorMap` (mainwindow.cpp:180-194): opaque library code. A computation is recorded only as the call it makes.
- File dialogs, `QImage::load`, `cv::imread` and the grayscale conversion (mainwindow.cpp:98-123, 135-160): I/O. A load gets the decoded image's dimensions. A cancelled dialog is `Cancelled`. The exception that `cvtColor` throws on an undecodable file is not modelled.
- Pixmap scaling for display (mainwindow.cpp:109-112, 146-149, 200-205): UI rendering.
- Re-fired callbacks after rounding: a callback that rounds its value calls `setValue`, which fires the callback again with the rounded value. `Parameters.RefiredRoundedValueChangesNothing` shows that this second run stores the same value. The second run's depth-map request, which repeats the first with identical inputs, is not modelled: the model makes each request once.
- The `setMaximum` clamp is modelled for the block-size slider, on the assumption that the slider's position is the stored block size. A Designer-form range that would keep the slider from that position is not part of this model.
- Slider ranges and the initial block-size slider maximum come from the Qt Designer form, which is not part of this model. The constructor takes that maximum as a parameter. Callbacks accept any integer.
- `Window.MainWindow.constructor`: the ten `setValue` calls at mainwindow.cpp:75-84 are not modelled. Each re-fires a callback with a value that already has its shape, with no image loaded, so the final state is the same.
- Window.MainWindow.PreFilterSizeValueChanged: fields are unbounded integers. C++ `int` is 32 bits. `Rounding.RoundToOddInInt32` shows that only the most negative `int` would overflow (undefined behaviour in C++), and a slider never reports it.
- Window.MainWindow.SadWindowSizeValueChanged: same 32-bit remark as the pre-filter size.
- The estimator's own checks of its parameters are not modelled. The callbacks do not enforce the ranges in the constructor's comments (5..255, 1..63, a positive number of disparities, non-negative thresholds), and `Window.GatedCall` does not check them. After a load the block size is within the slider maximum. With an image smaller than 5 on a side, that maximum is 5 and still exceeds the image.
