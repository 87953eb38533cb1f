/**
 * The iOS zoomable image view: a scroll view holding an image view, kept in
 * step with the declarative zoom properties by layout passes and native setters.
 */
module ImageZoomIos {
  import opened Geometry
  import opened FitScale
  import opened ScrollModel
  import opened Source
  import Native

  class ImageZoom {
    /** The declarative properties, stored by the property system. */
    var minZoom: real
    var maxZoom: real
    var zoomScale: real
    /** The native scroll view; `null` until the view is realised. */
    var nativeView: Native.ScrollView?
    /** The image surface the scroll view zooms (`_image`). */
    const imageView: Native.ImageView

    constructor (nativeView: Native.ScrollView?, imageView: Native.ImageView,
                 minZoom: real, maxZoom: real, zoomScale: real)
      ensures this.nativeView == nativeView && this.imageView == imageView
      ensures this.minZoom == minZoom && this.maxZoom == maxZoom && this.zoomScale == zoomScale
    {
      this.nativeView := nativeView;
      this.imageView := imageView;
      this.minZoom, this.maxZoom, this.zoomScale := minZoom, maxZoom, zoomScale;
    }

    /** The native state, read off the scroll view and the image view. */
    function State(): ScrollState
      reads this, nativeView, imageView
      requires nativeView != null
    {
      ScrollState(nativeView.minimumZoomScale, nativeView.maximumZoomScale, nativeView.zoomScale,
                  nativeView.bounds, nativeView.contentSize,
                  imageView.image, imageView.frame, imageView.stretch)
    }

    /**
     * refreshContentSize: size the content and the image frame to the larger of
     * the viewport and the zoomed image on each axis.
     */
    method RefreshContentSize()
      requires nativeView != null && imageView.image != null
      modifies nativeView, imageView
      ensures State() == Refreshed(old(State()))
    {
      var scrollView := nativeView;
      var scaledWidth := imageView.image.size.width * scrollView.zoomScale;
      var scaledHeight := imageView.image.size.height * scrollView.zoomScale;
      var width := if scrollView.bounds.width > scaledWidth then scrollView.bounds.width else scaledWidth;
      var height := if scrollView.bounds.height > scaledHeight then scrollView.bounds.height else scaledHeight;
      imageView.frame := Rect(0.0, 0.0, width, height);
      scrollView.contentSize := Size(width, height);
    }

    /** setMinScale: the minimum zoom becomes the fit scale times `scale`. */
    method SetMinScale(scale: real)
      requires nativeView != null && LayoutReady(State())
      modifies nativeView
      ensures State() == old(State()).(minimumZoomScale := Fit(old(State())) * scale)
    {
      nativeView.minimumZoomScale := CalcInitScale(imageView.image.size, nativeView.bounds) * scale;
    }

    /** setMaxScale: the maximum zoom becomes the fit scale times `scale`. */
    method SetMaxScale(scale: real)
      requires nativeView != null && LayoutReady(State())
      modifies nativeView
      ensures State() == old(State()).(maximumZoomScale := Fit(old(State())) * scale)
    {
      nativeView.maximumZoomScale := CalcInitScale(imageView.image.size, nativeView.bounds) * scale;
    }

    /** setScale: the current zoom becomes the fit scale times `scale`. */
    method SetScale(scale: real)
      requires nativeView != null && LayoutReady(State())
      modifies nativeView
      ensures State() == old(State()).(zoomScale := Fit(old(State())) * scale)
    {
      nativeView.zoomScale := CalcInitScale(imageView.image.size, nativeView.bounds) * scale;
    }

    /**
     * onLayout: push the minimum, maximum and current zoom, in that order,
     * then refresh the content size. The viewport is the bounds the host
     * layout engine has already given the scroll view.
     */
    method OnLayout()
      requires nativeView != null && LayoutReady(State())
      modifies nativeView, imageView
      ensures State() == LaidOut(old(State()), minZoom, maxZoom, zoomScale)
    {
      ghost var before := State();
      ghost var fit := Fit(before);
      SetMinScale(minZoom);
      assert Fit(State()) == fit by { assert State().image == before.image && State().bounds == before.bounds; }
      SetMaxScale(maxZoom);
      assert Fit(State()) == fit by { assert State().image == before.image && State().bounds == before.bounds; }
      SetScale(zoomScale);
      ghost var zoomed := State();
      assert zoomed == before.(minimumZoomScale := fit * minZoom, maximumZoomScale := fit * maxZoom,
                               zoomScale := fit * zoomScale);
      RefreshContentSize();
      assert State() == Zoomed(before, fit, minZoom, maxZoom, zoomScale);
    }

    /** The zoomScale property's native setter: the raw value, only on a realised view. */
    method SetZoomScaleNative(scale: real)
      modifies nativeView
      ensures nativeView != null ==> State() == old(State()).(zoomScale := scale)
      ensures nativeView == null ==> unchanged(imageView)
    {
      if nativeView != null {
        nativeView.zoomScale := scale;
      }
    }

    /** The minZoom property's native setter: the raw value, only on a realised view. */
    method SetMinZoomNative(scale: real)
      modifies nativeView
      ensures nativeView != null ==> State() == old(State()).(minimumZoomScale := scale)
      ensures nativeView == null ==> unchanged(imageView)
    {
      if nativeView != null {
        nativeView.minimumZoomScale := scale;
      }
    }

    /** The maxZoom property's native setter: the raw value, only on a realised view. */
    method SetMaxZoomNative(scale: real)
      modifies nativeView
      ensures nativeView != null ==> State() == old(State()).(maximumZoomScale := scale)
      ensures nativeView == null ==> unchanged(imageView)
    {
      if nativeView != null {
        nativeView.maximumZoomScale := scale;
      }
    }

    /** The stretch property's native setter: handed to the image view as it is. */
    method SetStretchNative(stretch: Native.Stretch)
      modifies imageView
      ensures imageView.stretch == stretch
      ensures imageView.image == old(imageView.image) && imageView.frame == old(imageView.frame)
    {
      imageView.stretch := stretch;
    }

    /**
     * The src property's native setter: load the image `Classify` selects. A
     * URL starts a fetch whose completion is not modelled, so the image view
     * is left as it was.
     */
    method SetSrcNative(src: Src, p: Platform)
      modifies imageView
      ensures match Classify(src, p)
        case Named(name) => imageView.image == p.imageNamed(name)
        case Handle(ios) => imageView.image == ios
        case Fetch(_) => imageView.image == old(imageView.image)
        case File(path) => imageView.image == p.imageWithContentsOfFile(path)
      ensures imageView.frame == old(imageView.frame) && imageView.stretch == old(imageView.stretch)
    {
      if src.Str? && ResourcePrefix <= src.s {
        imageView.image := p.imageNamed(RemoveFirst(src.s, ResourcePrefix));
      } else if src.Obj? {
        imageView.image := src.ios;
      } else if HttpPrefix <= src.s {
        // ImageSource.fromUrl(src) resolves later; nothing changes now.
      } else if AppPrefix <= src.s {
        imageView.image := p.imageWithContentsOfFile(p.join(p.currentAppPath, RemoveFirst(src.s, AppPrefix)));
      } else {
        imageView.image := p.imageWithContentsOfFile(src.s);
      }
    }
  }

  /**
   * A client: a 1000x500 image in a 100x100 scroll view with zoom factors
   * 1, 4 and 2 is laid out at native zoom 0.2 over 200x100 of content; a
   * raw zoomScale write then stores 2 unscaled.
   */
  method LayoutScenario() returns (zoom: real, content: Size, rawZoom: real)
    ensures zoom == 0.2 && content == Size(200.0, 100.0)
    ensures rawZoom == 2.0
  {
    var scroll := new Native.ScrollView(Size(100.0, 100.0));
    var imageView := new Native.ImageView(Native.AspectFit);
    var bitmap := new Native.UIImage(Size(1000.0, 500.0));
    var view := new ImageZoom(scroll, imageView, 1.0, 4.0, 2.0);
    view.SetSrcNative(Obj(bitmap), Platform("", (a, b) => a + b, _ => null, _ => null));
    LaidOutExample(view.State());
    view.OnLayout();
    zoom, content := scroll.zoomScale, scroll.contentSize;
    view.SetZoomScaleNative(2.0);
    rawZoom := scroll.zoomScale;
  }
}
