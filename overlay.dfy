/** The magnifier overlay (tool/magnifiermap.py, class MagnifierMap): the
    canvas item that owns the active layers, the cursor pixel, the oversized
    raster and the two factors, starts renders and paints the lens. */
module Overlay {
  import opened Common
  import opened Geometry

  datatype Point = Point(x: int, y: int)

  /** What one render job is asked for: the layers, the geographic extent
      (always the whole canvas extent) and the output size in pixels. */
  datatype RenderRequest = RenderRequest(layers: seq<Layer>, extent: Extent, outputWidth: int, outputHeight: int)

  /** A finished raster, known by the request it was rendered for. */
  datatype Image = Image(rendered: RenderRequest)

  /** What one paint of the lens does: clip to the circle inscribed in `lens`,
      draw `image` with its top-left corner at the offset, outline the circle. */
  datatype Draw = Draw(lens: Rect, offsetX: int, offsetY: int, image: Image)

  /** The overlay's fields at one moment. `rect` is the item's extent on the
      canvas; `jobs` lists every render job started, oldest first. */
  datatype OverlayState = OverlayState(
    layers: seq<Layer>,
    pixelPoint: Option<Point>,
    image: Option<Image>,
    zoomFactor: int,
    magnifierFactor: int,
    rect: Option<Extent>,
    jobs: seq<RenderRequest>)

  /** The effect of `clear`. */
  function Cleared(s: OverlayState): (r: OverlayState)
    ensures r.layers == [] && r.pixelPoint.None? && r.image.None?
    ensures r.(layers := s.layers, pixelPoint := s.pixelPoint, image := s.image) == s
  {
    s.(layers := [], pixelPoint := None, image := None)
  }

  /** The effect of `setPixelPoint`: the cursor is only taken while a raster
      exists, so no lens is placed before there is something to show. */
  function PixelPointSet(s: OverlayState, p: Point): (r: OverlayState)
    ensures s.image.None? ==> r == s
    ensures s.image.Some? ==> r.pixelPoint == Some(p) && r.(pixelPoint := s.pixelPoint) == s
  {
    if s.image.None? then s else s.(pixelPoint := Some(p))
  }

  /** The effect of `setImage`: with no layers nothing happens; otherwise the
      old raster is dropped and one job is started that renders the layers over
      the whole canvas extent at `zoomFactor` times the canvas size. */
  function StartRender(s: OverlayState, canvas: Canvas): (r: OverlayState)
    ensures s.layers == [] ==> r == s
    ensures s.layers != [] ==>
      && r.image.None?
      && r.rect == Some(canvas.extent)
      && |r.jobs| == |s.jobs| + 1 && r.jobs[..|s.jobs|] == s.jobs
      && r.jobs[|s.jobs|].layers == s.layers
      && r.jobs[|s.jobs|].extent == canvas.extent
      && r.jobs[|s.jobs|].outputWidth == canvas.width * s.zoomFactor
      && r.jobs[|s.jobs|].outputHeight == canvas.height * s.zoomFactor
      && r.(image := s.image, rect := s.rect, jobs := s.jobs) == s
  {
    if s.layers == [] then s
    else
      var request := RenderRequest(s.layers, canvas.extent, canvas.width * s.zoomFactor, canvas.height * s.zoomFactor);
      s.(image := None, rect := Some(canvas.extent), jobs := s.jobs + [request])
  }

  /** The effect of a job's completion: its raster replaces whatever is stored.
      No check that the job is the latest one, or that layers are still active. */
  function Completed(s: OverlayState, k: nat): (r: OverlayState)
    requires k < |s.jobs|
    ensures r.image == Some(Image(s.jobs[k]))
    ensures r.(image := s.image) == s
  {
    s.(image := Some(Image(s.jobs[k])))
  }

  class MagnifierMap {
    var layers: seq<Layer>
    var pixelPoint: Option<Point>
    var image: Option<Image>
    var zoomFactor: int
    var magnifierFactor: int
    var rect: Option<Extent>
    var jobs: seq<RenderRequest>

    function State(): OverlayState
      reads this
    {
      OverlayState(layers, pixelPoint, image, zoomFactor, magnifierFactor, rect, jobs)
    }

    constructor (zoomFactor: int, magnifierFactor: int)
      ensures State() == OverlayState([], None, None, zoomFactor, magnifierFactor, None, [])
    {
      this.zoomFactor := zoomFactor;
      this.magnifierFactor := magnifierFactor;
      layers := [];
      pixelPoint := None;
      image := None;
      rect := None;
      jobs := [];
    }

    method Clear()
      modifies this
      ensures State() == Cleared(old(State()))
    {
      layers := [];
      pixelPoint := None;
      image := None;
    }

    method SetPixelPoint(p: Point)
      modifies this
      ensures State() == PixelPointSet(old(State()), p)
    {
      if image.None? {
        return;
      }
      pixelPoint := Some(p);
    }

    /** The lens `paint` would draw on a canvas of `w` x `h` pixels, if any. */
    function Paint(w: int, h: int): (r: Option<Draw>)
      reads this
      ensures r.Some? <==>
        layers != [] && pixelPoint.Some? && image.Some?
        && InCanvas(pixelPoint.value.x, pixelPoint.value.y, w, h)
      ensures r.Some? ==>
        var p, d := pixelPoint.value, LensDiameter(w, h, magnifierFactor);
        && r.value.image == image.value
        && r.value.lens.width == d && r.value.lens.height == d
        && p.x - r.value.lens.x == LensRadius(d) && p.y - r.value.lens.y == LensRadius(d)
        && r.value.offsetX + p.x * zoomFactor == p.x
        && r.value.offsetY + p.y * zoomFactor == p.y
    {
      if layers == [] || pixelPoint.None? || image.None? then None
      else
        var x, y := pixelPoint.value.x, pixelPoint.value.y;
        if x < 0 || x > w || y < 0 || y > h then None
        else
          var d := LensDiameter(w, h, magnifierFactor);
          Some(Draw(LensRect(x, y, d), DrawOffset(x, zoomFactor), DrawOffset(y, zoomFactor), image.value))
    }

    method SetImage(canvas: Canvas)
      modifies this
      ensures State() == StartRender(old(State()), canvas)
    {
      if layers == [] {
        return;
      }
      rect := Some(canvas.extent);
      image := None;
      jobs := jobs + [RenderRequest(layers, canvas.extent, canvas.width * zoomFactor, canvas.height * zoomFactor)];
    }

    /** The completion of the `k`-th job started by `SetImage`. */
    method Finished(k: nat)
      requires k < |jobs|
      modifies this
      ensures State() == Completed(old(State()), k)
    {
      image := Some(Image(jobs[k]));
    }
  }

  /** Completions are not ordered by the jobs they belong to: after a pan
      between two renders, when the older job finishes after the newer one, the
      older raster (of the old extent) is what stays, not the newer one. */
  lemma {:induction false} LateCompletionWins(s: OverlayState, c1: Canvas, c2: Canvas)
    requires s.layers != [] && c1.extent != c2.extent
    ensures var t := StartRender(StartRender(s, c1), c2);
      && Completed(Completed(t, |s.jobs| + 1), |s.jobs|).image == Some(Image(t.jobs[|s.jobs|]))
      && Completed(Completed(t, |s.jobs| + 1), |s.jobs|).image != Some(Image(t.jobs[|s.jobs| + 1]))
  {
  }

  /** A completion that arrives after `clear` still stores its raster. */
  lemma {:induction false} CompletionAfterClear(s: OverlayState, k: nat)
    requires k < |s.jobs|
    ensures Completed(Cleared(s), k).layers == [] && Completed(Cleared(s), k).image.Some?
  {
  }
}
