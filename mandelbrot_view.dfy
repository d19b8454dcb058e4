/**
 * MandelbrotView: the pixel scan that fills the bitmap, and the render
 * scheduler driven by taps, pinches and render completions.
 *
 * The asynchronous dispatch of a render is modelled as two steps: starting a
 * job (DrawMandelbrot records the centre, zoom and iteration budget it will
 * use) and completing it (Complete runs the pixel scan for that job, then the
 * completion closure). Gesture events may be interleaved between the two.
 */
module Mandelbrot {
  import opened EscapeTime
  import opened Geometry

  datatype Option<T> = None | Some(value: T) {
    function GetOr(default: T): T {
      match this
      case Some(v) => v
      case None => default
    }
  }

  /** The iteration budget of a full-detail render (MAX_INTERATION_COUNT). */
  const MaxIterationCount: nat := 10000

  /** The iteration budget of the preview rendered while a pinch is changing. */
  const PreviewIterationCount: nat := 10

  /** The phases a gesture recognizer reports to its action. */
  datatype GestureState = Possible | Began | Changed | Ended | Cancelled | Failed

  /** What a dispatched render works with: the centre, zoom and budget it was started with. */
  datatype RenderJob = RenderJob(center: Point, zoom: real, maxIterationCount: nat)

  /** The classification the scan writes for pixel (i, j). */
  function Classify(i: int, j: int, center: Point, zoom: real, maxIterationCount: nat): EscapeResult
    requires zoom != 0.0
  {
    Escape(PixelToPlane(i, j, center, zoom), maxIterationCount)
  }

  /** The number of pixels (i, j) with 0 <= j < rows that are classified in the set. */
  function ColumnInSetCount(i: int, rows: nat, center: Point, zoom: real, maxIterationCount: nat): nat
    requires zoom != 0.0
  {
    if rows == 0 then 0
    else ColumnInSetCount(i, rows - 1, center, zoom, maxIterationCount)
         + (if Classify(i, rows - 1, center, zoom, maxIterationCount).inSet then 1 else 0)
  }

  /** The number of pixels (i, j) with 0 <= i < columns and 0 <= j < rows that are classified in the set. */
  function InSetCount(columns: nat, rows: nat, center: Point, zoom: real, maxIterationCount: nat): nat
    requires zoom != 0.0
  {
    if columns == 0 then 0
    else InSetCount(columns - 1, rows, center, zoom, maxIterationCount)
         + ColumnInSetCount(columns - 1, rows, center, zoom, maxIterationCount)
  }

  lemma {:induction false} ColumnInSetCountBound(i: int, rows: nat, center: Point, zoom: real, maxIterationCount: nat)
    requires zoom != 0.0
    ensures ColumnInSetCount(i, rows, center, zoom, maxIterationCount) <= rows
  {
    if rows > 0 {
      ColumnInSetCountBound(i, rows - 1, center, zoom, maxIterationCount);
    }
  }

  /** A pass adds at most one to the counter per pixel it visits. */
  lemma {:induction false} InSetCountBound(columns: nat, rows: nat, center: Point, zoom: real, maxIterationCount: nat)
    requires zoom != 0.0
    ensures InSetCount(columns, rows, center, zoom, maxIterationCount) <= columns * rows
  {
    if columns > 0 {
      InSetCountBound(columns - 1, rows, center, zoom, maxIterationCount);
      ColumnInSetCountBound(columns - 1, rows, center, zoom, maxIterationCount);
      assert (columns - 1) * rows + rows == columns * rows;
    }
  }

  class MandelbrotView {
    /** The frame size, in whole points. */
    const width: nat
    const height: nat
    /** The layout of the bitmap context created for the frame. */
    const layout: BitmapLayout
    /** The classification written for each pixel (i, j) the scan visits, 0 <= i <= width, 0 <= j <= height. */
    const pixels: array2<EscapeResult>

    var zoomUsed: real
    var centerUsed: Point
    var drawDetailed: bool
    var currentlyDrawing: bool
    var lastZoom: real
    var counterOfPixelsInSet: nat
    /** The render that has been dispatched and whose completion has not run yet. */
    var job: Option<RenderJob>
    /** Every render started so far, oldest first. */
    ghost var started: seq<RenderJob>
    /** How many renders have completed so far. */
    ghost var completed: nat

    ghost predicate Valid()
      reads this
    {
      && pixels.Length0 == width + 1 && pixels.Length1 == height + 1
      && zoomUsed > 0.0 && lastZoom > 0.0
      && (currentlyDrawing <==> job.Some?)
      && (job.Some? ==> job.value.zoom > 0.0 && |started| > 0 && started[|started| - 1] == job.value)
      // at most one render is in flight: every render started has completed, except the one in `job`
      && |started| == completed + (if job.Some? then 1 else 0)
    }

    /** The bitmap holds the classification of every pixel for the given job. */
    ghost predicate Shows(r: RenderJob)
      reads this, pixels
      requires Valid() && r.zoom != 0.0
    {
      forall i, j :: 0 <= i <= width && 0 <= j <= height ==>
        pixels[i, j] == Classify(i, j, r.center, r.zoom, r.maxIterationCount)
    }

    /** init(frame:) followed by setup(): create the bitmap, centre on the view's centre, start the first render. */
    constructor (width: nat, height: nat, center: Point)
      ensures Valid()
      ensures this.width == width && this.height == height && fresh(pixels)
      ensures layout == CreateBitmapLayout(width, height)
      ensures centerUsed == center && zoomUsed == 1.0 && lastZoom == 1.0
      ensures !drawDetailed && counterOfPixelsInSet == 0
      ensures currentlyDrawing && job == Some(RenderJob(center, 1.0, MaxIterationCount)) && started == [job.value]
      ensures completed == 0
    {
      this.width := width;
      this.height := height;
      layout := CreateBitmapLayout(width, height);
      pixels := new EscapeResult[width + 1, height + 1];
      zoomUsed := 1.0;
      centerUsed := Point(0.0, 0.0);
      drawDetailed := false;
      currentlyDrawing := false;
      lastZoom := 1.0;
      counterOfPixelsInSet := 0;
      job := None;
      started := [];
      completed := 0;
      new;
      centerUsed := center;
      DrawMandelbrot(None);
    }

    /**
     * drawMandelbrot: a request is dropped while a render is in flight;
     * otherwise it starts exactly one render with the current centre and zoom
     * and the given budget, 10000 when none is given.
     */
    method DrawMandelbrot(maxIterationCountOverridden: Option<nat>)
      requires Valid()
      modifies this
      ensures Valid() && currentlyDrawing
      ensures centerUsed == old(centerUsed) && zoomUsed == old(zoomUsed) && lastZoom == old(lastZoom)
      ensures drawDetailed == old(drawDetailed) && counterOfPixelsInSet == old(counterOfPixelsInSet)
      ensures completed == old(completed)
      ensures old(currentlyDrawing) ==> job == old(job) && started == old(started)
      ensures !old(currentlyDrawing) ==>
                && job == Some(RenderJob(centerUsed, zoomUsed, maxIterationCountOverridden.GetOr(MaxIterationCount)))
                && started == old(started) + [job.value]
    {
      var maxIterationCountUsed := maxIterationCountOverridden.GetOr(MaxIterationCount);
      if !currentlyDrawing {
        currentlyDrawing := true;
        job := Some(RenderJob(centerUsed, zoomUsed, maxIterationCountUsed));
        started := started + [job.value];
      }
    }

    /**
     * drawMandelbrotAtPoint: visits every pixel (i, j), 0 <= i <= width and
     * 0 <= j <= height, writes its classification and counts the pixels in the
     * set; the counter is never reset.
     */
    method DrawMandelbrotAtPoint(centerPoint: Point, zoom: real, maxIterationCount: nat)
      requires Valid() && zoom != 0.0
      modifies this`counterOfPixelsInSet, pixels
      ensures Valid() && Shows(RenderJob(centerPoint, zoom, maxIterationCount))
      ensures counterOfPixelsInSet
              == old(counterOfPixelsInSet) + InSetCount(width + 1, height + 1, centerPoint, zoom, maxIterationCount)
    {
      for i := 0 to width + 1
        invariant forall a, b :: 0 <= a < i && 0 <= b <= height ==>
                    pixels[a, b] == Classify(a, b, centerPoint, zoom, maxIterationCount)
        invariant counterOfPixelsInSet
                  == old(counterOfPixelsInSet) + InSetCount(i, height + 1, centerPoint, zoom, maxIterationCount)
      {
        for j := 0 to height + 1
          invariant forall a, b :: 0 <= a < i && 0 <= b <= height ==>
                      pixels[a, b] == Classify(a, b, centerPoint, zoom, maxIterationCount)
          invariant forall b :: 0 <= b < j ==> pixels[i, b] == Classify(i, b, centerPoint, zoom, maxIterationCount)
          invariant counterOfPixelsInSet
                    == old(counterOfPixelsInSet) + InSetCount(i, height + 1, centerPoint, zoom, maxIterationCount)
                       + ColumnInSetCount(i, j, centerPoint, zoom, maxIterationCount)
        {
          var c := PixelToPlane(i, j, centerPoint, zoom);
          var inSet, iterationCount := InMandelbrotSet(c.re, c.im, maxIterationCount);
          if inSet {
            counterOfPixelsInSet := counterOfPixelsInSet + 1;
          }
          pixels[i, j] := EscapeResult(inSet, iterationCount);
        }
      }
    }

    /**
     * The end of a dispatched render: the background block scans the bitmap
     * with the job's centre, zoom and budget, then the completion closure runs
     * on the main queue. The closure marks the view idle and, if a detailed
     * render is owed, clears the debt and starts a full-detail render with the
     * centre and zoom current at that moment.
     */
    method Complete()
      requires Valid() && currentlyDrawing
      modifies this, pixels
      ensures Valid() && Shows(old(job).value)
      ensures counterOfPixelsInSet
              == old(counterOfPixelsInSet)
                 + InSetCount(width + 1, height + 1, old(job).value.center, old(job).value.zoom,
                              old(job).value.maxIterationCount)
      ensures centerUsed == old(centerUsed) && zoomUsed == old(zoomUsed) && lastZoom == old(lastZoom)
      ensures !drawDetailed && completed == old(completed) + 1
      ensures old(drawDetailed) ==>
                && currentlyDrawing
                && job == Some(RenderJob(centerUsed, zoomUsed, MaxIterationCount))
                && started == old(started) + [job.value]
      ensures !old(drawDetailed) ==> !currentlyDrawing && job == None && started == old(started)
    {
      var running := job.value;
      DrawMandelbrotAtPoint(running.center, running.zoom, running.maxIterationCount);
      currentlyDrawing := false;
      job := None;
      completed := completed + 1;
      if drawDetailed {
        drawDetailed := false;
        DrawMandelbrot(None);
      }
    }

    /** tapped: recentre on the tapped point and request a full-detail render. */
    method Tapped(point: Point)
      requires Valid()
      modifies this
      ensures Valid() && currentlyDrawing
      ensures centerUsed == point && zoomUsed == old(zoomUsed) && lastZoom == old(lastZoom)
      ensures drawDetailed == old(drawDetailed) && counterOfPixelsInSet == old(counterOfPixelsInSet)
      ensures completed == old(completed)
      ensures old(currentlyDrawing) ==> job == old(job) && started == old(started)
      ensures !old(currentlyDrawing) ==>
                job == Some(RenderJob(point, zoomUsed, MaxIterationCount)) && started == old(started) + [job.value]
    {
      centerUsed := point;
      DrawMandelbrot(None);
    }

    /**
     * zoomed: every pinch event sets the zoom to lastZoom * scale and the
     * centre to the pinch location. A changing pinch requests a 10-iteration
     * preview; an ended pinch commits the zoom and marks a detailed render as
     * owed, without starting one; other phases do nothing more.
     */
    method Zoomed(point: Point, scale: real, state: GestureState)
      requires Valid() && scale > 0.0
      modifies this
      ensures Valid()
      ensures zoomUsed == old(lastZoom) * scale && centerUsed == point
      ensures counterOfPixelsInSet == old(counterOfPixelsInSet) && completed == old(completed)
      ensures state == Ended ==>
                && drawDetailed && lastZoom == zoomUsed
                && currentlyDrawing == old(currentlyDrawing) && job == old(job) && started == old(started)
      ensures state == Changed ==>
                && drawDetailed == old(drawDetailed) && lastZoom == old(lastZoom) && currentlyDrawing
                && (old(currentlyDrawing) ==> job == old(job) && started == old(started))
                && (!old(currentlyDrawing) ==>
                      job == Some(RenderJob(point, zoomUsed, PreviewIterationCount)) && started == old(started) + [job.value])
      ensures state != Ended && state != Changed ==>
                && drawDetailed == old(drawDetailed) && lastZoom == old(lastZoom)
                && currentlyDrawing == old(currentlyDrawing) && job == old(job) && started == old(started)
    {
      zoomUsed := lastZoom * scale;
      centerUsed := point;
      if state == Ended {
        drawDetailed := true;
        lastZoom := zoomUsed;
      } else if state == Changed {
        DrawMandelbrot(Some(PreviewIterationCount));
      }
    }
  }

  /**
   * A pinch whose changes arrive before any render completes, then its end,
   * then the completion of the render in flight. However many previews were
   * requested, at most one of them started; the completion then starts exactly
   * one full-detail render, with the final pinch's centre and zoom. If no
   * render was in flight when the pinch ended, the detailed render stays owed
   * and none starts.
   */
  method PinchGesture(view: MandelbrotView, changes: seq<(Point, real)>, endPoint: Point, endScale: real)
    requires view.Valid()
    requires forall k :: 0 <= k < |changes| ==> changes[k].1 > 0.0
    requires endScale > 0.0
    modifies view, view.pixels
    ensures view.Valid()
    ensures old(view.started) <= view.started
    ensures forall k :: |old(view.started)| <= k < |view.started| - 1 ==>
              view.started[k].maxIterationCount == PreviewIterationCount
    ensures view.centerUsed == endPoint && view.zoomUsed == view.lastZoom == old(view.lastZoom) * endScale
    ensures |changes| > 0 || old(view.currentlyDrawing) ==>
              && !view.drawDetailed
              && view.job == Some(RenderJob(endPoint, view.lastZoom, MaxIterationCount))
              && |old(view.started)| < |view.started| <= |old(view.started)| + 2
              && view.completed == old(view.completed) + 1
    ensures |changes| == 0 && !old(view.currentlyDrawing) ==>
              && view.drawDetailed && !view.currentlyDrawing && view.started == old(view.started)
              && view.completed == old(view.completed)
  {
    for k := 0 to |changes|
      invariant view.Valid()
      invariant view.lastZoom == old(view.lastZoom)
      invariant !view.drawDetailed || old(view.drawDetailed)
      invariant k > 0 || old(view.currentlyDrawing) ==> view.currentlyDrawing
      invariant k == 0 ==> view.currentlyDrawing == old(view.currentlyDrawing) && view.started == old(view.started)
      invariant |old(view.started)| <= |view.started| <= |old(view.started)| + 1
      invariant old(view.started) <= view.started
      invariant view.completed == old(view.completed)
      invariant forall m :: |old(view.started)| <= m < |view.started| ==>
                  view.started[m].maxIterationCount == PreviewIterationCount
    {
      view.Zoomed(changes[k].0, changes[k].1, Changed);
    }
    view.Zoomed(endPoint, endScale, Ended);
    if view.currentlyDrawing {
      view.Complete();
    }
  }
}
