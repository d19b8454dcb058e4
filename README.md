# Mandelbrot view: a verified model

A Dafny model of `MandelbrotView`, the one class with logic in the Mandelbrot
Swift app. The view draws the Mandelbrot set into a bitmap. A tap recentres the
view and a pinch zooms it. A render runs off the main thread, and the view keeps
at most one render in flight.

The model has three modules:

- `EscapeTime` (`escape_time.dfy`): the escape-time evaluator `inMandelbrotSet`.
  `Orbit` defines z_n of z ← z² + c, and `Escape` is an independent reference
  answer: the first escaping step among 1 .. max + 1. `IsEscapeTime` describes
  every correct answer, and two lemmas show that `Escape` is the only one. The
  method `InMandelbrotSet` keeps the source's loop and is proved equal to `Escape`.
- `Geometry` (`geometry.dfy`): the pixel-to-plane mapping of
  `drawMandelbrotAtPoint`, and the row-stride and byte-count arithmetic of
  `createCustomBitmapContextWithSize`. The byte count models `bitMapByteCount`,
  which the code computes but never reads: only the stride reaches
  `CGBitmapContextCreate`.
- `Mandelbrot` (`mandelbrot_view.dfy`): the class `MandelbrotView`. It has the
  source's fields `zoomUsed`, `centerUsed`, `drawDetailed`, `currentlyDrawing`,
  `lastZoom` and `counterOfPixelsInSet`, plus the frame size `width` and
  `height`, the bitmap `layout`, the bitmap itself as a 2-D array `pixels` of
  classifications, the render in flight `job`, and the ghost logs `started`
  (every render started) and `completed` (how many renders finished). Its
  methods are the scheduler events (`DrawMandelbrot`, `Complete`, `Tapped`,
  `Zoomed`) and the pixel scan (`DrawMandelbrotAtPoint`).

An asynchronous render is split into two steps. `DrawMandelbrot` starts a
`RenderJob` that records the centre, zoom and iteration budget. `Complete` runs
the pixel scan for that job and then the completion closure. Taps and pinches
may arrive between the two steps. A ghost log `started` lists every job started,
and `Valid()` ties the job in flight to the last entry of that log. `Valid()`
also states that at most one render is in flight: the number of renders started
is the number completed, plus one while `job` holds a render.

Floating-point numbers (`Float`, `CGFloat`) are modelled as exact `real`s.
Every property proved is about control flow, counting and exact arithmetic.

Behaviour of the code worth noting:

- The evaluator loops over the inclusive range `0...maxIterationCount`. It takes
  up to maxIterationCount + 1 steps, and a point that never escapes reports
  maxIterationCount + 1, not maxIterationCount.
- The escape test is a strict `> 4`. So c = 2 survives step 1 (4 > 4 is false).
- A pinch that ends only marks a detailed render as owed. It starts no render,
  even when the view is idle.
- A request dropped while drawing is simply lost. Only a pinch ending sets
  `drawDetailed`.
- The scan covers 0 ≤ i ≤ width and 0 ≤ j ≤ height, both bounds included.
- `counterOfPixelsInSet` is never reset, so it adds up over all renders.

## Model

| member | source | states |
|---|---|---|
| `EscapeTime.InMandelbrotSet` | MandelbrotSwift/MandelbrotView.swift:163-191 | Each pass applies `Step` (z ← z² + c, lines 175-178) and tests `Escaped` (\|z\|² > 4, line 181). The loop's result is a correct escape-time answer (see `IsEscapeTime`) and equals the reference `Escape(c, max)`: the count is between 1 and max + 1; an escaping point gives the first step whose squared magnitude is > 4; a non-escaping point gives max + 1, with no escape at any step |
| `EscapeTime.FirstEscapeFound` | MandelbrotSwift/MandelbrotView.swift:172-188 | A search from step n that started after non-escaping steps returns a count in [n, last]. No earlier step escaped. The count escapes if the search reports escape, and the count is `last` with no escape if it reports in-set |
| `EscapeTime.EscapeIsEscapeTime` | MandelbrotSwift/MandelbrotView.swift:172-188 | The reference answer meets every condition of an escape-time answer |
| `EscapeTime.EscapeTimeIsUnique` | MandelbrotSwift/MandelbrotView.swift:172-188 | Any result meeting those conditions equals the reference answer, so the conditions fix the result completely |
| `EscapeTime.OrbitOne` | MandelbrotSwift/MandelbrotView.swift:167-178 | Starting from z = 0, the first step gives z_1 = c |
| `EscapeTime.OrbitTwo` | MandelbrotSwift/MandelbrotView.swift:167-187 | The second step gives z_2 = c² + c |
| `EscapeTime.OriginIsFixed` | MandelbrotSwift/MandelbrotView.swift:175-187 | For c = 0 the orbit stays at 0 forever |
| `EscapeTime.OriginInSet` | MandelbrotSwift/MandelbrotView.swift:172-190 | c = 0 is in the set for every budget, with count max + 1 |
| `EscapeTime.EscapesAtFirstStep` | MandelbrotSwift/MandelbrotView.swift:172-184 | A point with \|c\|² > 4 escapes at step 1 for every budget |
| `EscapeTime.EscapesAtSecondStep` | MandelbrotSwift/MandelbrotView.swift:172-187 | A point that survives step 1 but whose z_2 escapes is reported at step 2, when the budget is at least 1 |
| `EscapeTime.SurvivesZeroBudget` | MandelbrotSwift/MandelbrotView.swift:172-190 | With budget 0 there is exactly one step. A point that survives it is reported in the set with count 1 |
| `EscapeTime.ThreeEscapesAtFirstStep` | MandelbrotSwift/MandelbrotView.swift:175-184 | c = 3 escapes at step 1 for every budget |
| `EscapeTime.TwoEscapesAtSecondStep` | MandelbrotSwift/MandelbrotView.swift:175-186 | c = 2 is not escaped at step 1 (strict >), and it escapes at step 2 whenever the budget is at least 1 |
| `EscapeTime.TwoInSetWithZeroBudget` | MandelbrotSwift/MandelbrotView.swift:172-190 | With budget 0, c = 2 is reported in the set with count 1 |
| `EscapeTime.EscapeStableUnderLargerBudget` | MandelbrotSwift/MandelbrotView.swift:172-190 | A point that escapes under some budget gets the same answer and the same count under any larger budget |
| `EscapeTime.InSetUnderSmallerBudget` | MandelbrotSwift/MandelbrotView.swift:172-190 | If a point is reported in the set under some budget, it is also reported in the set, with count m + 1, under every smaller budget m |
| `Geometry.PixelToPlane` | MandelbrotSwift/MandelbrotView.swift:113-117 | The mapped point, scaled by 160·zoom and shifted by (1.33·center.x, 1.00·center.y), gives the pixel back: the mapping is inverted exactly |
| `Geometry.PixelToPlaneInjective` | MandelbrotSwift/MandelbrotView.swift:113-117 | Two distinct pixels never map to the same point of the plane |
| `Geometry.ZoomScalesPlane` | MandelbrotSwift/MandelbrotView.swift:116-117 | Multiplying the zoom by k > 0 divides both coordinates of every mapped point by k |
| `Geometry.DefaultViewCorners` | MandelbrotSwift/MandelbrotView.swift:104-117 | For a 480×320 frame centred at (240, 160) at zoom 1, pixel (0, 0) maps to (-1.995, -1) and pixel (480, 320) to (1.005, 1). The comment's window [-2, 1] × [-1, 1] is met only approximately (1.33 is not 4/3) and only for a frame of that shape |
| `Geometry.BytesPerRow` | MandelbrotSwift/MandelbrotView.swift:51-52 | The stride is a multiple of 16, is at least width·4, and is less than width·4 + 16 |
| `Geometry.BytesPerRowIsLeast` | MandelbrotSwift/MandelbrotView.swift:51-52 | No multiple of 16 that holds width·4 bytes is smaller than the stride |
| `Geometry.NoPaddingForAlignedWidth` | MandelbrotSwift/MandelbrotView.swift:51-52 | A width that is a multiple of 4 gets no padding: the stride is exactly width·4 |
| `Geometry.CreateBitmapLayout` | MandelbrotSwift/MandelbrotView.swift:50-56 | The layout keeps the size. Only the stride is passed on to the context (line 56); the byte count models `bitMapByteCount`, which the code discards. The byte count is stride·height, a multiple of 16, at least 4·width·height, and below (4·width + 16)·height when height > 0 |
| `Geometry.ScaleRowBounds` | MandelbrotSwift/MandelbrotView.swift:53 | Multiplying by height keeps a row's alignment and bounds |
| `Mandelbrot.ColumnInSetCountBound` | MandelbrotSwift/MandelbrotView.swift:112-121 | One column adds at most one to the counter for each row it visits |
| `Mandelbrot.InSetCountBound` | MandelbrotSwift/MandelbrotView.swift:111-121 | One pass adds at most columns·rows to the counter, and that is (width+1)·(height+1) for the scan |
| `Mandelbrot.MandelbrotView.constructor` | MandelbrotSwift/MandelbrotView.swift:27-47 | Setup computes the bitmap layout for the frame and allocates a fresh bitmap. It centres on the view's centre at zoom 1 with nothing owed and the counter at 0, and starts exactly one full-detail render |
| `Mandelbrot.MandelbrotView.DrawMandelbrot` | MandelbrotSwift/MandelbrotView.swift:77-84 | While drawing, the request is dropped and nothing changes. When idle, it sets `currentlyDrawing` and starts exactly one job with the current centre and zoom and budget `override ?? 10000`. No other field changes |
| `Mandelbrot.MandelbrotView.DrawMandelbrotAtPoint` | MandelbrotSwift/MandelbrotView.swift:96-133 | Every pixel (i, j) with 0 ≤ i ≤ width and 0 ≤ j ≤ height holds `Classify`, the escape answer of its mapped point (lines 113-119). The counter grows by exactly `InSetCount`, the number of in-set pixels of the pass (line 121), and the scheduler state is untouched |
| `Mandelbrot.MandelbrotView.Complete` | MandelbrotSwift/MandelbrotView.swift:82-91 | The bitmap shows the job that was in flight, and the counter grows by that job's in-set pixels. One more render counts as completed. If a detailed render was owed, the debt is cleared and one 10000-iteration job starts with the current centre and zoom. Otherwise the view is idle with no job. Centre and zoom are unchanged |
| `Mandelbrot.MandelbrotView.Tapped` | MandelbrotSwift/MandelbrotView.swift:140-145 | The centre becomes the tapped point. Zoom, `lastZoom`, `drawDetailed` and the counter are unchanged. A full-detail request follows and is subject to the drop rule |
| `Mandelbrot.MandelbrotView.Zoomed` | MandelbrotSwift/MandelbrotView.swift:147-160 | Every phase sets zoom = lastZoom·scale and centre = the pinch point. Ended sets `drawDetailed`, commits `lastZoom` and starts no job. Changed requests a 10-iteration preview under the drop rule. Other phases change nothing more |
| `Mandelbrot.PinchGesture` | MandelbrotSwift/MandelbrotView.swift:147-160 | Pinch changes followed by the end, with no completion until the end. The log of started jobs only grows. If anything was in flight, one render completes and one or two jobs start: the last is the full-detail job with the final pinch's centre and committed zoom, and any job before it is a 10-iteration preview, so exactly one full-detail job follows. If nothing was in flight, the detail stays owed and no job starts |

## Left out

- CoreGraphics and UIKit calls have no semantics visible in this model: creating the bitmap context and the colour space, anti-aliasing, fill colours and rectangles, `drawRect`, `setNeedsDisplay`, and registering the gesture recognizers. The bitmap is a grid of classifications. It has (width+1)×(height+1) cells because the scan also fills the row and column just outside the context, which CoreGraphics clips.
- Grey levels (`255 * iterationCount / maxIterationCount`) are not modelled, because their clamping happens inside CoreGraphics. Only the in-set/escaped split and the step count are kept.
- `backgroundThread` and the GCD queues: the dispatch is two explicit steps, start and `Complete`, and the `delay` parameter is not modelled.
- The background block reads `self.centerUsed` and `self.zoomUsed` when it runs. The model snapshots them when the job starts, so a gesture that lands between dispatch and the start of the scan is not seen by that render.
- Mandelbrot.MandelbrotView.Complete: the background scan and the completion closure form one step. A gesture between them touches only state that the scan does not read or write, so the two orders end in the same state.
- Float and CGFloat rounding: arithmetic is exact over `real`. A zoom of 0, which would divide by zero, is excluded. `Valid()` keeps zoom > 0, and `Zoomed` requires a positive pinch scale, as the gesture recognizer reports.
- Frame sizes are whole numbers (`nat`). The source applies `Int(...)` to `frame.width` for the scan. The stride is computed on `CGFloat`, and fractional sizes are not modelled there.
- EscapeTime.InMandelbrotSet: the budget is a `nat`. Swift traps on forming `0...n` for negative n, and the callers pass only 10 or 10000.
- `counterOfPixelsInSet` is an unbounded `nat`. The overflow trap of Swift's `Int` is not modelled.
- `print` logging.
- `MandelbrotSwift/ViewController.swift` only creates and adds the view. It is not part of this model.
- Mandelbrot.PinchGesture: covers only a pinch whose changes all arrive before any render completes. Other interleavings follow from the per-event contracts.
