/**
 * The state of the scroll view and its image surface as a value, and the
 * effect of each zoom-related operation on it. The methods RefreshContentSize,
 * SetMinScale, SetMaxScale, SetScale and OnLayout of the class in ImageZoomIos
 * are proved to move its objects exactly as these functions say.
 */
module ScrollModel {
  import opened Geometry
  import opened FitScale
  import Native

  /** Everything the zoom logic reads or writes on the two native views. */
  datatype ScrollState = ScrollState(
    minimumZoomScale: real,
    maximumZoomScale: real,
    zoomScale: real,
    bounds: Size,
    contentSize: Size,
    image: Native.UIImage?,
    frame: Rect,
    stretch: Native.Stretch)

  /** An image is loaded and both it and the viewport have positive size. */
  predicate LayoutReady(st: ScrollState) {
    st.image != null && st.image.size.Positive() && st.bounds.Positive()
  }

  /** The fit scale of the current image in the current viewport. */
  function Fit(st: ScrollState): (s: real)
    requires LayoutReady(st)
    ensures s > 0.0
  {
    CalcInitScale(st.image.size, st.bounds)
  }

  /**
   * refreshContentSize: on each axis, the larger of the viewport and the image
   * at the current zoom becomes both the content size and the image frame,
   * anchored at the origin. Nothing else changes.
   */
  function Refreshed(st: ScrollState): (r: ScrollState)
    requires st.image != null
    ensures r.contentSize.width >= st.bounds.width && r.contentSize.height >= st.bounds.height
    ensures r.contentSize.width >= st.image.size.width * st.zoomScale
    ensures r.contentSize.height >= st.image.size.height * st.zoomScale
    ensures r.contentSize.width == st.bounds.width
            || r.contentSize.width == st.image.size.width * st.zoomScale
    ensures r.contentSize.height == st.bounds.height
            || r.contentSize.height == st.image.size.height * st.zoomScale
    ensures r.frame == Rect(0.0, 0.0, r.contentSize.width, r.contentSize.height)
    ensures r == st.(contentSize := r.contentSize, frame := r.frame)
  {
    var scaledWidth := st.image.size.width * st.zoomScale;
    var scaledHeight := st.image.size.height * st.zoomScale;
    var width := if st.bounds.width > scaledWidth then st.bounds.width else scaledWidth;
    var height := if st.bounds.height > scaledHeight then st.bounds.height else scaledHeight;
    st.(frame := Rect(0.0, 0.0, width, height), contentSize := Size(width, height))
  }

  /** The content size is the per-axis maximum of the viewport and the zoomed image. */
  lemma RefreshedIsMax(st: ScrollState)
    requires st.image != null
    ensures Refreshed(st).contentSize
            == Size(Max(st.bounds.width, st.image.size.width * st.zoomScale),
                    Max(st.bounds.height, st.image.size.height * st.zoomScale))
  {
  }

  /** refreshContentSize only writes what it never reads, so a second call changes nothing. */
  lemma RefreshedIdempotent(st: ScrollState)
    requires st.image != null
    ensures Refreshed(Refreshed(st)) == Refreshed(st)
  {
  }

  /**
   * The writes of a layout pass for a given fit scale: the minimum zoom, the
   * maximum zoom and the current zoom (in that order) become the fit scale
   * times the normalised factors, then the content size is refreshed.
   */
  function Zoomed(st: ScrollState, fit: real, minZoom: real, maxZoom: real, zoomScale: real): (r: ScrollState)
    requires st.image != null
    ensures r.minimumZoomScale == fit * minZoom && r.maximumZoomScale == fit * maxZoom
    ensures r.zoomScale == fit * zoomScale
    ensures r.contentSize == Size(Max(st.bounds.width, st.image.size.width * r.zoomScale),
                                  Max(st.bounds.height, st.image.size.height * r.zoomScale))
    ensures r.frame == Rect(0.0, 0.0, r.contentSize.width, r.contentSize.height)
    ensures r.bounds == st.bounds && r.image == st.image && r.stretch == st.stretch
  {
    var withMin := st.(minimumZoomScale := fit * minZoom);
    var withMax := withMin.(maximumZoomScale := fit * maxZoom);
    var withZoom := withMax.(zoomScale := fit * zoomScale);
    Refreshed(withZoom)
  }

  /** onLayout: the layout writes for the fit scale of the current image and viewport. */
  function LaidOut(st: ScrollState, minZoom: real, maxZoom: real, zoomScale: real): (r: ScrollState)
    requires LayoutReady(st)
    ensures LayoutReady(r) && r.image == st.image && r.bounds == st.bounds
  {
    Zoomed(st, Fit(st), minZoom, maxZoom, zoomScale)
  }

  /** Repeating the layout writes for the same fit scale changes nothing. */
  lemma ZoomedIdempotent(st: ScrollState, fit: real, minZoom: real, maxZoom: real, zoomScale: real)
    requires st.image != null
    ensures Zoomed(Zoomed(st, fit, minZoom, maxZoom, zoomScale), fit, minZoom, maxZoom, zoomScale)
            == Zoomed(st, fit, minZoom, maxZoom, zoomScale)
  {
  }

  /**
   * After a layout pass: the zoom limits and zoom are the fit scale times the
   * normalised factors; the content size and frame cover the larger of the
   * viewport and the image at that zoom; the viewport, image and stretch are kept.
   */
  lemma LaidOutState(st: ScrollState, minZoom: real, maxZoom: real, zoomScale: real)
    requires LayoutReady(st)
    ensures var r := LaidOut(st, minZoom, maxZoom, zoomScale);
      && r.minimumZoomScale == Fit(st) * minZoom
      && r.maximumZoomScale == Fit(st) * maxZoom
      && r.zoomScale == Fit(st) * zoomScale
      && r.contentSize == Size(Max(st.bounds.width, st.image.size.width * r.zoomScale),
                               Max(st.bounds.height, st.image.size.height * r.zoomScale))
      && r.frame == Rect(0.0, 0.0, r.contentSize.width, r.contentSize.height)
      && r.contentSize.width >= st.bounds.width && r.contentSize.height >= st.bounds.height
      && r.bounds == st.bounds && r.image == st.image && r.stretch == st.stretch
  {
  }

  /**
   * A layout pass at zoom factor 1 shows the whole image: at the new zoom the
   * image fits the viewport and touches it on one axis, so the content size
   * is the viewport.
   */
  lemma LaidOutAtFitShowsWholeImage(st: ScrollState, minZoom: real, maxZoom: real)
    requires LayoutReady(st)
    ensures var r := LaidOut(st, minZoom, maxZoom, 1.0);
      && FitsIn(st.image.size, r.zoomScale, st.bounds)
      && r.contentSize == st.bounds
  {
  }

  /** Laying out twice with the same factors gives the same state as laying out once. */
  lemma LaidOutIdempotent(st: ScrollState, minZoom: real, maxZoom: real, zoomScale: real)
    requires LayoutReady(st)
    ensures LaidOut(LaidOut(st, minZoom, maxZoom, zoomScale), minZoom, maxZoom, zoomScale)
            == LaidOut(st, minZoom, maxZoom, zoomScale)
  {
    ZoomedIdempotent(st, Fit(st), minZoom, maxZoom, zoomScale);
  }

  /**
   * A 1000x500 image in a 100x100 viewport has fit scale
   * 0.1; at zoom factor 2 the native zoom is 0.2 and the content is 200x100.
   */
  lemma LaidOutExample(st: ScrollState)
    requires st.image != null && st.image.size == Size(1000.0, 500.0)
    requires st.bounds == Size(100.0, 100.0)
    ensures Fit(st) == 0.1
    ensures LaidOut(st, 1.0, 4.0, 2.0).minimumZoomScale == 0.1
    ensures LaidOut(st, 1.0, 4.0, 2.0).maximumZoomScale == 0.4
    ensures LaidOut(st, 1.0, 4.0, 2.0).zoomScale == 0.2
    ensures LaidOut(st, 1.0, 4.0, 2.0).contentSize == Size(200.0, 100.0)
    ensures LaidOut(st, 1.0, 1.0, 1.0).contentSize == Size(100.0, 100.0)
  {
  }
}
